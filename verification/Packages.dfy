/**
 Configuration packages: writing one, and extracting one that nothing is trusted about. An
 archive is a list of members with their headers and contents; a digest tells contents apart.
 The codec of the manifest is a parameter. Sizes and limits are those of the program, in bytes.
 */
module Packages {
  import opened Common
  import opened PackagePaths

  type Bytes = string

  const MAX_PACKAGE_BYTES := 2 * 1024 * 1024 * 1024
  const MAX_EXTRACTED_BYTES := 8 * 1024 * 1024 * 1024
  const MAX_MANIFEST_BYTES := 8 * 1024 * 1024
  const MAX_CONFIG_JSON_BYTES := 64 * 1024 * 1024
  const ARCHIVE_CHUNK_BYTES := 1024 * 1024
  const PACKAGE_FORMAT := "personalityrag.prag"
  const PACKAGE_VERSION := 2
  const MANIFEST_NAME := "manifest.json"

  /** `OtherHex`: 64 hexadecimal digits that are the digest of nothing known. */
  datatype Digest = Sha256(content: Bytes) | OtherHex(text: string) | NotHex(text: string)

  datatype FileEntry = Entry(sha256: Digest, size: Option<int>) | NotAnEntry
  datatype Scope = Scope(libraries: Option<bool>, providers: Option<bool>)

  /** `files` in the order of the document; `None` where it is not an object. */
  datatype LibraryEntry =
    | Library(id: string, databaseType: string, path: string, files: Option<seq<(string, string)>>, empty: bool)
    | NotALibrary

  datatype Manifest = Manifest(format: string, version: int, scope: Option<Scope>, libraries: Option<seq<LibraryEntry>>,
                               defaultDatabase: (string, string), files: Option<seq<(string, FileEntry)>>)

  datatype Member = Member(filename: string, dir: bool, symlink: bool, encrypted: bool, fileSize: int, content: Bytes)

  datatype Package = Package(size: nat, isZip: bool, password: string, members: seq<Member>)

  datatype Expected = Expected(sha256: Digest, size: nat)

  // ----- Members of an archive -----

  function Name(m: Member): string {
    if SafeMember(m.filename).Some? then SafeMember(m.filename).value else ""
  }

  predicate MemberOk(m: Member) {
    !m.dir && SafeMember(m.filename).Some? && !m.symlink && m.encrypted && m.fileSize >= 0
  }

  function DeclaredSize(ms: seq<Member>): int {
    if ms == [] then 0 else DeclaredSize(ms[..|ms| - 1]) + ms[|ms| - 1].fileSize
  }

  /** The members by their normalised names. */
  function Index(ms: seq<Member>): map<string, Member> {
    if ms == [] then map[] else Index(ms[..|ms| - 1])[Name(ms[|ms| - 1]) := ms[|ms| - 1]]
  }

  predicate MembersOk(ms: seq<Member>) {
    && (forall i :: 0 <= i < |ms| ==> MemberOk(ms[i]))
    && (forall i, j :: 0 <= i < j < |ms| ==> Name(ms[i]) != Name(ms[j]))
    && DeclaredSize(ms) <= MAX_EXTRACTED_BYTES
    && MANIFEST_NAME in Index(ms)
  }

  lemma {:induction false} IndexIs(ms: seq<Member>)
    ensures forall n :: n in Index(ms) <==> exists i :: 0 <= i < |ms| && Name(ms[i]) == n
  {
    if ms != [] {
      var front := ms[..|ms| - 1];
      IndexIs(front);
      forall n ensures n in Index(ms) <==> exists i :: 0 <= i < |ms| && Name(ms[i]) == n {
        if n in Index(front) {
          var i :| 0 <= i < |front| && Name(front[i]) == n;
          assert Name(ms[i]) == n;
        }
        if i :| 0 <= i < |ms| && Name(ms[i]) == n {
          assert i < |front| ==> Name(front[i]) == n;
        }
      }
    }
  }

  lemma {:induction false} SizesGrow(ms: seq<Member>, k: nat)
    requires k <= |ms| && forall i :: 0 <= i < |ms| ==> ms[i].fileSize >= 0
    ensures DeclaredSize(ms[..k]) <= DeclaredSize(ms)
  {
    if k == |ms| {
      assert ms[..k] == ms;
    } else {
      SizesGrow(ms[..|ms| - 1], k);
      assert ms[..|ms| - 1][..k] == ms[..k];
    }
  }

  lemma NextMember(ms: seq<Member>, k: nat)
    requires k < |ms|
    ensures DeclaredSize(ms[..k + 1]) == DeclaredSize(ms[..k]) + ms[k].fileSize
    ensures Index(ms[..k + 1]) == Index(ms[..k])[Name(ms[k]) := ms[k]]
  {
    assert ms[..k + 1][..k] == ms[..k];
  }

  /** What the first `k` members may be for the scan to go on. */
  predicate GoodSoFar(ms: seq<Member>, k: nat)
    requires k <= |ms|
  {
    && (forall i :: 0 <= i < k ==> MemberOk(ms[i]))
    && (forall i, j :: 0 <= i < j < k ==> Name(ms[i]) != Name(ms[j]))
    && DeclaredSize(ms[..k]) <= MAX_EXTRACTED_BYTES
  }

  lemma ScanStep(ms: seq<Member>, k: nat)
    requires k < |ms| && GoodSoFar(ms, k)
    ensures GoodSoFar(ms, k + 1) <==>
            MemberOk(ms[k]) && Name(ms[k]) !in Index(ms[..k]) && DeclaredSize(ms[..k + 1]) <= MAX_EXTRACTED_BYTES
    ensures !GoodSoFar(ms, k + 1) ==> !MembersOk(ms)
  {
    hide Name, MemberOk, Index, DeclaredSize;
    NameIsTaken(ms, k);
    if !(DeclaredSize(ms[..k + 1]) <= MAX_EXTRACTED_BYTES) {
      TooLarge(ms, k + 1);
    }
  }

  lemma NameIsTaken(ms: seq<Member>, k: nat)
    requires k < |ms|
    ensures Name(ms[k]) in Index(ms[..k]) <==> exists i :: 0 <= i < k && Name(ms[i]) == Name(ms[k])
  {
    hide Name, Index;
    IndexIs(ms[..k]);
    if i :| 0 <= i < k && Name(ms[i]) == Name(ms[k]) {
      assert Name(ms[..k][i]) == Name(ms[k]);
    }
    if Name(ms[k]) in Index(ms[..k]) {
      var i :| 0 <= i < |ms[..k]| && Name(ms[..k][i]) == Name(ms[k]);
      assert Name(ms[i]) == Name(ms[k]);
    }
  }

  lemma TooLarge(ms: seq<Member>, k: nat)
    requires k <= |ms| && DeclaredSize(ms[..k]) > MAX_EXTRACTED_BYTES
    ensures !MembersOk(ms)
  {
    hide DeclaredSize, Index;
    if forall i :: 0 <= i < |ms| ==> MemberOk(ms[i]) {
      SizesGrow(ms, k);
    }
  }

  lemma ScanEnds(ms: seq<Member>)
    ensures GoodSoFar(ms, 0) && ms[..0] == []
    ensures MembersOk(ms) <==> GoodSoFar(ms, |ms|) && MANIFEST_NAME in Index(ms)
  {
    assert ms[..|ms|] == ms;
  }

  /** `_validated_archive_members` */
  method ValidatedMembers(ms: seq<Member>) returns (ok: bool, members: map<string, Member>, manifest: Option<Member>)
    ensures ok <==> MembersOk(ms)
    ensures ok ==> manifest == Some(Index(ms)[MANIFEST_NAME]) && members == Index(ms) - {MANIFEST_NAME}
  {
    hide SafeMember, MembersOk, GoodSoFar, Index, DeclaredSize;
    members, manifest := map[], None;
    var total := 0;
    var k := 0;
    ScanEnds(ms);
    Empties();
    while k < |ms|
      invariant 0 <= k <= |ms| && GoodSoFar(ms, k) && total == DeclaredSize(ms[..k])
      invariant members == Index(ms[..k]) - {MANIFEST_NAME}
      invariant manifest == if MANIFEST_NAME in Index(ms[..k]) then Some(Index(ms[..k])[MANIFEST_NAME]) else None
    {
      var info := ms[k];
      NextMember(ms, k);
      ScanStep(ms, k);
      if info.dir || SafeMember(info.filename).None? {
        return false, members, manifest;
      }
      var name := SafeMember(info.filename).value;
      if name in members || (manifest.Some? && name == MANIFEST_NAME) {
        return false, members, manifest;
      }
      if info.symlink || !info.encrypted || info.fileSize < 0 {
        return false, members, manifest;
      }
      total := total + info.fileSize;
      if total > MAX_EXTRACTED_BYTES {
        return false, members, manifest;
      }
      if name == MANIFEST_NAME {
        manifest := Some(info);
      } else {
        members := members[name := info];
      }
      k := k + 1;
    }
    assert ms[..k] == ms;
    ok := manifest.Some?;
  }

  lemma Empties()
    ensures Index([]) == map[] && DeclaredSize([]) == 0
  {
  }

  // ----- Reading in chunks -----

  function Least(a: nat, b: nat): nat {
    if a <= b then a else b
  }

  /** `_read_manifest_member`: header and stream must both keep the limit, and agree. */
  method ReadManifest(m: Member) returns (bytes: Option<Bytes>)
    ensures bytes == if m.fileSize <= MAX_MANIFEST_BYTES && |m.content| == m.fileSize then Some(m.content) else None
  {
    if m.fileSize > MAX_MANIFEST_BYTES {
      return None;
    }
    var chunks: Bytes := "";
    while |chunks| < |m.content|
      invariant |chunks| <= |m.content| && chunks == m.content[..|chunks|] && |chunks| <= MAX_MANIFEST_BYTES
      decreases |m.content| - |chunks|
    {
      var next := Least(|chunks| + ARCHIVE_CHUNK_BYTES, |m.content|);
      if next > MAX_MANIFEST_BYTES {
        return None;
      }
      chunks := chunks + m.content[|chunks|..next];
    }
    if |chunks| != m.fileSize {
      return None;
    }
    assert chunks == m.content;
    return Some(chunks);
  }

  // ----- The declared files -----

  predicate EntryOk(e: (string, FileEntry)) {
    && SafeMember(e.0).Some? && SafeMember(e.0).value != MANIFEST_NAME
    && e.1.Entry? && !e.1.sha256.NotHex? && e.1.size.Some? && e.1.size.value >= 0
  }

  function EntryName(e: (string, FileEntry)): string {
    if SafeMember(e.0).Some? then SafeMember(e.0).value else ""
  }

  function EntrySize(e: (string, FileEntry)): int {
    if e.1.Entry? && e.1.size.Some? then e.1.size.value else 0
  }

  function Sizes(es: seq<(string, FileEntry)>): int {
    if es == [] then 0 else Sizes(es[..|es| - 1]) + EntrySize(es[|es| - 1])
  }

  function Declared(es: seq<(string, FileEntry)>): map<string, Expected>
    requires forall i :: 0 <= i < |es| ==> EntryOk(es[i])
  {
    if es == [] then map[]
    else
      var e := es[|es| - 1];
      assert EntryOk(e);
      Declared(es[..|es| - 1])[EntryName(e) := Expected(e.1.sha256, e.1.size.value)]
  }

  predicate DeclarationOk(es: seq<(string, FileEntry)>, manifestSize: nat) {
    && (forall i :: 0 <= i < |es| ==> EntryOk(es[i]))
    && (forall i, j :: 0 <= i < j < |es| ==> EntryName(es[i]) != EntryName(es[j]))
    && manifestSize + Sizes(es) <= MAX_EXTRACTED_BYTES
  }

  lemma {:induction false} DeclaredIs(es: seq<(string, FileEntry)>)
    requires forall i :: 0 <= i < |es| ==> EntryOk(es[i])
    ensures forall n :: n in Declared(es) <==> exists i :: 0 <= i < |es| && EntryName(es[i]) == n
  {
    hide SafeMember, EntryOk, EntryName;
    if es != [] {
      var front := es[..|es| - 1];
      DeclaredIs(front);
      forall n ensures n in Declared(es) <==> exists i :: 0 <= i < |es| && EntryName(es[i]) == n {
        if n in Declared(front) {
          var i :| 0 <= i < |front| && EntryName(front[i]) == n;
          assert EntryName(es[i]) == n;
        }
        if i :| 0 <= i < |es| && EntryName(es[i]) == n {
          assert i < |front| ==> EntryName(front[i]) == n;
        }
      }
    }
  }

  lemma {:induction false} EntriesGrow(es: seq<(string, FileEntry)>, k: nat)
    requires k <= |es| && forall i :: 0 <= i < |es| ==> EntrySize(es[i]) >= 0
    ensures Sizes(es[..k]) <= Sizes(es)
  {
    if k == |es| {
      assert es[..k] == es;
    } else {
      EntriesGrow(es[..|es| - 1], k);
      assert es[..|es| - 1][..k] == es[..k];
    }
  }

  lemma NextEntry(es: seq<(string, FileEntry)>, k: nat)
    requires k < |es|
    ensures Sizes(es[..k + 1]) == Sizes(es[..k]) + EntrySize(es[k])
    ensures (forall i :: 0 <= i <= k ==> EntryOk(es[i])) ==>
              Declared(es[..k + 1]) ==
                Declared(es[..k])[EntryName(es[k]) := Expected(es[k].1.sha256, es[k].1.size.value)]
  {
    assert es[..k + 1][..k] == es[..k];
  }

  /** The loop over the file list of a manifest (backup_migration.py:633-656). */
  method ReadDeclaration(es: seq<(string, FileEntry)>, manifestSize: nat)
    returns (declared: Option<map<string, Expected>>)
    requires manifestSize <= MAX_MANIFEST_BYTES
    ensures declared.Some? <==> DeclarationOk(es, manifestSize)
    ensures declared.Some? ==> declared.value == Declared(es)
  {
    hide SafeMember;
    var result: map<string, Expected> := map[];
    var total := manifestSize;
    var k := 0;
    assert es[..0] == [];
    while k < |es|
      invariant 0 <= k <= |es|
      invariant forall i :: 0 <= i < k ==> EntryOk(es[i])
      invariant forall i, j :: 0 <= i < j < k ==> EntryName(es[i]) != EntryName(es[j])
      invariant total == manifestSize + Sizes(es[..k]) <= MAX_EXTRACTED_BYTES
      invariant result == Declared(es[..k])
    {
      NextEntry(es, k);
      DeclaredIs(es[..k]);
      var (rawName, rawEntry) := es[k];
      if SafeMember(rawName).None? {
        assert !EntryOk(es[k]);
        return None;
      }
      var name := SafeMember(rawName).value;
      if name == MANIFEST_NAME {
        assert !EntryOk(es[k]);
        return None;
      }
      if name in result {
        var i :| 0 <= i < k && EntryName(es[..k][i]) == name;
        assert EntryName(es[i]) == EntryName(es[k]);
        return None;
      }
      if rawEntry.NotAnEntry? || rawEntry.size.None? || rawEntry.size.value < 0 || rawEntry.sha256.NotHex? {
        assert !EntryOk(es[k]);
        return None;
      }
      total := total + rawEntry.size.value;
      if total > MAX_EXTRACTED_BYTES {
        if forall i :: 0 <= i < |es| ==> EntryOk(es[i]) {
          forall i | 0 <= i < |es| ensures EntrySize(es[i]) >= 0 {
            assert EntryOk(es[i]);
          }
          EntriesGrow(es, k + 1);
        }
        return None;
      }
      forall i | 0 <= i < k ensures EntryName(es[i]) != name {
        assert EntryName(es[..k][i]) == EntryName(es[i]);
      }
      result := result[name := Expected(rawEntry.sha256, rawEntry.size.value)];
      k := k + 1;
    }
    assert es[..k] == es;
    return Some(result);
  }

  // ----- The structure of a package -----

  const LIVING_MEMORY := "livingmemory_v8"
  const TEXT_MEDIA := "text_media_v1"

  predicate Identifier(s: string) {
    s != "" && forall i :: 0 <= i < |s| ==>
      'A' <= s[i] <= 'Z' || 'a' <= s[i] <= 'z' || '0' <= s[i] <= '9' || s[i] == '_' || s[i] == '-'
  }

  function Base(e: LibraryEntry): string {
    if e.Library? && SafeMember(e.path).Some? then SafeMember(e.path).value else ""
  }

  function Ref(e: LibraryEntry): (string, string) {
    if e.Library? then (e.databaseType, e.id) else ("", "")
  }

  /** One file a library entry names: its kind belongs to the type, and its path to the entry. */
  predicate FileOk(e: LibraryEntry, file: (string, string))
    requires e.Library?
  {
    SafeMember(file.1).Some?
    && var member := SafeMember(file.1).value;
       if e.databaseType == TEXT_MEDIA then
         file.0 == "native_package" && member == "databases/" + TEXT_MEDIA + "/" + e.id + ".tmkb"
       else
         (file.0 == "livingmemory_db" || file.0 == "conversations_db")
         && Base(e) + "/" <= member
         && Leaf(member) == (if file.0 == "livingmemory_db" then "livingmemory.db" else "conversations.db")
  }

  predicate Names(files: seq<(string, string)>, kind: string) {
    exists i :: 0 <= i < |files| && files[i].0 == kind
  }

  predicate LibraryOk(e: LibraryEntry) {
    && e.Library? && Identifier(e.id) && (e.databaseType == LIVING_MEMORY || e.databaseType == TEXT_MEDIA)
    && SafeMember(e.path).Some? && e.files.Some?
    && (forall i :: 0 <= i < |e.files.value| ==> FileOk(e, e.files.value[i]))
    && (e.databaseType == TEXT_MEDIA ==> Names(e.files.value, "native_package"))
    && (e.databaseType == LIVING_MEMORY && !e.empty ==> Names(e.files.value, "livingmemory_db"))
  }

  function FileMembers(files: seq<(string, string)>): set<string> {
    set i | 0 <= i < |files| && SafeMember(files[i].1).Some? :: SafeMember(files[i].1).value
  }

  /** The members the library entries call for. */
  function LibraryMembers(es: seq<LibraryEntry>): set<string> {
    if es == [] then {}
    else
      var e := es[|es| - 1];
      LibraryMembers(es[..|es| - 1])
      + (if e.Library? && e.files.Some? then {Base(e) + "/library.json"} + FileMembers(e.files.value) else {})
  }

  function Required(m: Manifest): set<string>
    requires m.scope.Some? && m.scope.value.libraries.Some? && m.scope.value.providers.Some? && m.libraries.Some?
  {
    {"config/global.json"}
    + (if m.scope.value.providers.value then {"providers/providers.json"} else {})
    + (if m.scope.value.libraries.value then {"libraries/libraries.json"} else {})
    + LibraryMembers(m.libraries.value)
  }

  predicate IsJson(name: string) {
    |name| >= 5 && name[|name| - 5..] == ".json"
  }

  /** Entries are well formed, and no two share a database or a path. */
  predicate LibrariesOk(es: seq<LibraryEntry>) {
    && (forall i :: 0 <= i < |es| ==> LibraryOk(es[i]))
    && (forall i, j :: 0 <= i < j < |es| ==> Ref(es[i]) != Ref(es[j]) && Base(es[i]) != Base(es[j]))
  }

  predicate Refers(es: seq<LibraryEntry>, ref: (string, string)) {
    exists i :: 0 <= i < |es| && Ref(es[i]) == ref
  }

  predicate StructureOk(m: Manifest, declared: map<string, Expected>) {
    && m.scope.Some? && m.scope.value.libraries.Some? && m.scope.value.providers.Some? && m.libraries.Some?
    && (m.scope.value.libraries.value || m.libraries.value == [])
    && LibrariesOk(m.libraries.value)
    && (m.scope.value.libraries.value ==> Refers(m.libraries.value, m.defaultDatabase))
    && Required(m) <= declared.Keys
    && (forall n :: n in declared && IsJson(n) ==> declared[n].size <= MAX_CONFIG_JSON_BYTES)
  }

  /** The checks of one library entry (backup_migration.py:517-581); the members it calls for. */
  method CheckLibrary(e: LibraryEntry) returns (ok: bool, needs: set<string>)
    ensures ok <==> LibraryOk(e)
    ensures ok ==> needs == {Base(e) + "/library.json"} + FileMembers(e.files.value)
  {
    hide SafeMember, Identifier, Leaf;
    needs := {};
    if e.NotALibrary? || !Identifier(e.id) || (e.databaseType != LIVING_MEMORY && e.databaseType != TEXT_MEDIA) {
      return false, {};
    }
    if SafeMember(e.path).None? || e.files.None? {
      return false, {};
    }
    needs := {Base(e) + "/library.json"};
    var files := e.files.value;
    var k := 0;
    while k < |files|
      invariant 0 <= k <= |files| && forall i :: 0 <= i < k ==> FileOk(e, files[i])
      invariant needs == {Base(e) + "/library.json"} + FileMembers(files[..k])
    {
      if !FileOk(e, files[k]) {
        return false, {};
      }
      MoreFiles(files, k);
      needs := needs + {SafeMember(files[k].1).value};
      k := k + 1;
    }
    assert files[..k] == files;
    ok := (e.databaseType == TEXT_MEDIA ==> Names(files, "native_package"))
          && (e.databaseType == LIVING_MEMORY && !e.empty ==> Names(files, "livingmemory_db"));
  }

  lemma MoreFiles(files: seq<(string, string)>, k: nat)
    requires k < |files| && SafeMember(files[k].1).Some?
    ensures FileMembers(files[..k + 1]) == FileMembers(files[..k]) + {SafeMember(files[k].1).value}
  {
    hide SafeMember;
    var a, b := files[..k], files[..k + 1];
    forall n ensures n in FileMembers(b) <==> n in FileMembers(a) + {SafeMember(files[k].1).value} {
      if n in FileMembers(a) {
        var i :| 0 <= i < |a| && SafeMember(a[i].1).Some? && SafeMember(a[i].1).value == n;
        assert b[i] == a[i];
      }
      if n in FileMembers(b) {
        var i :| 0 <= i < |b| && SafeMember(b[i].1).Some? && SafeMember(b[i].1).value == n;
        assert i < k ==> a[i] == b[i];
      }
      assert b[k] == files[k];
    }
  }

  /** `_validate_package_structure` */
  method ValidateStructure(m: Manifest, declared: map<string, Expected>) returns (ok: bool)
    ensures ok <==> StructureOk(m, declared)
  {
    hide LibraryOk, Base, Ref, FileMembers;
    if m.scope.None? || m.scope.value.libraries.None? || m.scope.value.providers.None? || m.libraries.None? {
      return false;
    }
    var es := m.libraries.value;
    if !m.scope.value.libraries.value && es != [] {
      return false;
    }
    var libraries := CheckLibraries(es);
    if libraries.None? {
      return false;
    }
    if m.scope.value.libraries.value && !Refers(es, m.defaultDatabase) {
      return false;
    }
    var required := {"config/global.json"};
    if m.scope.value.providers.value {
      required := required + {"providers/providers.json"};
    }
    if m.scope.value.libraries.value {
      required := required + {"libraries/libraries.json"};
    }
    required := required + libraries.value;
    if !(required <= declared.Keys) {
      return false;
    }
    ok := forall n :: n in declared && IsJson(n) ==> declared[n].size <= MAX_CONFIG_JSON_BYTES;
  }

  /** The loop over the library entries; the members they call for. */
  method CheckLibraries(es: seq<LibraryEntry>) returns (required: Option<set<string>>)
    ensures required.Some? <==> LibrariesOk(es)
    ensures required.Some? ==> required.value == LibraryMembers(es)
  {
    hide LibraryOk, Base, Ref, FileMembers;
    var needed: set<string> := {};
    var refs: set<(string, string)> := {};
    var paths: set<string> := {};
    var k := 0;
    assert es[..0] == [];
    while k < |es|
      invariant 0 <= k <= |es| && LibrariesOk(es[..k]) && needed == LibraryMembers(es[..k])
      invariant forall r :: r in refs <==> exists i :: 0 <= i < k && Ref(es[i]) == r
      invariant forall p :: p in paths <==> exists i :: 0 <= i < k && Base(es[i]) == p
    {
      var ok, more := CheckLibrary(es[k]);
      NextLibrary(es, k);
      if !ok || Ref(es[k]) in refs || Base(es[k]) in paths {
        return None;
      }
      LibraryIsLibrary(es[k]);
      needed := needed + more;
      refs := refs + {Ref(es[k])};
      paths := paths + {Base(es[k])};
      k := k + 1;
    }
    assert es[..k] == es;
    return Some(needed);
  }

  lemma LibraryIsLibrary(e: LibraryEntry)
    requires LibraryOk(e)
    ensures e.Library? && e.files.Some?
  {
  }

  lemma NextLibrary(es: seq<LibraryEntry>, k: nat)
    requires k < |es| && LibrariesOk(es[..k])
    ensures LibrariesOk(es[..k + 1]) <==>
              LibraryOk(es[k]) && forall i :: 0 <= i < k ==> Ref(es[i]) != Ref(es[k]) && Base(es[i]) != Base(es[k])
    ensures LibrariesOk(es) ==> LibrariesOk(es[..k + 1])
    ensures LibraryMembers(es[..k + 1]) ==
            LibraryMembers(es[..k])
            + (if es[k].Library? && es[k].files.Some?
              then {Base(es[k]) + "/library.json"} + FileMembers(es[k].files.value) else {})
  {
    hide LibraryOk, Base, Ref, FileMembers;
    var a, b := es[..k], es[..k + 1];
    assert b[..k] == a && b[k] == es[k];
    assert forall i :: 0 <= i < k ==> a[i] == es[i] && b[i] == es[i];
  }

  // ----- Extraction -----

  /** One of the names is a directory on the way to the other. */
  predicate Conflict(a: string, b: string) {
    a + "/" <= b || b + "/" <= a
  }

  predicate ConflictFree(names: set<string>) {
    forall a, b :: a in names && b in names ==> !Conflict(a, b)
  }

  /** The bytes written so far. */
  function Weight(files: seq<(string, Bytes)>): nat {
    if files == [] then 0 else Weight(files[..|files| - 1]) + |files[|files| - 1].1|
  }

  function NamesOf(files: seq<(string, Bytes)>): set<string> {
    set i | 0 <= i < |files| :: files[i].0
  }

  /** No file is larger than declared. */
  predicate WithinDeclared(files: seq<(string, Bytes)>, declared: map<string, Expected>) {
    forall i :: 0 <= i < |files| ==> files[i].0 in declared && |files[i].1| <= declared[files[i].0].size
  }

  /** The file is what its member holds, and what was declared. */
  predicate Verified(file: (string, Bytes), declared: map<string, Expected>, members: map<string, Member>) {
    file.0 in declared && file.0 in members && file.1 == members[file.0].content
    && MemberMatches(members[file.0], declared[file.0])
  }

  predicate MemberMatches(m: Member, e: Expected) {
    m.fileSize == e.size && |m.content| == e.size && Sha256(m.content) == e.sha256
  }

  /** Everything written is within the limits, whether or not extraction got to its end. */
  ghost predicate Bounded(files: seq<(string, Bytes)>, declared: map<string, Expected>, start: nat) {
    WithinDeclared(files, declared) && start + Weight(files) <= MAX_EXTRACTED_BYTES
  }

  lemma LastFile(files: seq<(string, Bytes)>, name: string, bytes: Bytes)
    ensures Weight(files + [(name, bytes)]) == Weight(files) + |bytes|
    ensures NamesOf(files + [(name, bytes)]) == NamesOf(files) + {name}
  {
    var more := files + [(name, bytes)];
    assert more[..|more| - 1] == files && more[|files|] == (name, bytes);
    forall n ensures n in NamesOf(more) <==> n in NamesOf(files) + {name} {
      if n in NamesOf(files) {
        var i :| 0 <= i < |files| && files[i].0 == n;
        assert more[i] == files[i];
      }
      if n in NamesOf(more) {
        var i :| 0 <= i < |more| && more[i].0 == n;
        assert i < |files| ==> files[i] == more[i];
      }
      assert more[|files|].0 in NamesOf(more);
    }
  }

  /** The directory a package is extracted into. */
  class Target {
    var files: seq<(string, Bytes)>
    var total: nat                    // bytes read, the manifest included

    constructor (manifestSize: nat)
      ensures files == [] && total == manifestSize
    {
      files, total := [], manifestSize;
    }

    /**
     The streaming loop of one member (backup_migration.py:684-706): at every step the file is within
     its declared size.
     */
    method Stream(name: string, expected: Expected, m: Member, ghost declared: map<string, Expected>, ghost start: nat)
      returns (ok: bool)
      requires name in declared && declared[name] == expected && Bounded(files, declared, start)
      requires total == start + Weight(files)
      modifies this
      ensures Bounded(files, declared, start)
      ensures ok <==> |m.content| == expected.size && Sha256(m.content) == expected.sha256
                      && old(total) + |m.content| <= MAX_EXTRACTED_BYTES
      ensures ok ==> files == old(files) + [(name, m.content)] && total == start + Weight(files)
    {
      hide WithinDeclared, Weight, Bounded;
      ghost var before := files;
      BoundedTotal(before, declared, start);
      Extend(before, name, "", declared, start);
      files := files + [(name, "")];
      var actual := 0;
      while actual < |m.content|
        invariant actual <= |m.content| && actual <= expected.size
        invariant total == old(total) + actual <= MAX_EXTRACTED_BYTES
        invariant files == before + [(name, m.content[..actual])] && Bounded(files, declared, start)
        decreases |m.content| - actual
      {
        var next := Least(actual + ARCHIVE_CHUNK_BYTES, |m.content|);
        var chunk := m.content[actual..next];
        total := total + |chunk|;
        if next > expected.size || total > MAX_EXTRACTED_BYTES {
          return false;
        }
        Extend(before, name, m.content[..next], declared, start);
        files := files[..|files| - 1] + [(name, files[|files| - 1].1 + chunk)];
        assert m.content[..actual] + chunk == m.content[..next];
        actual := next;
      }
      assert m.content[..actual] == m.content;
      Extend(before, name, m.content[..actual], declared, start);
      ok := actual == expected.size && Sha256(files[|files| - 1].1) == expected.sha256;
    }
  }

  lemma BoundedTotal(files: seq<(string, Bytes)>, declared: map<string, Expected>, start: nat)
    requires Bounded(files, declared, start)
    ensures start + Weight(files) <= MAX_EXTRACTED_BYTES
  {
  }

  lemma Extend(files: seq<(string, Bytes)>, name: string, bytes: Bytes, declared: map<string, Expected>, start: nat)
    requires Bounded(files, declared, start)
    ensures Weight(files + [(name, bytes)]) == Weight(files) + |bytes|
    ensures name in declared && |bytes| <= declared[name].size
            && start + Weight(files) + |bytes| <= MAX_EXTRACTED_BYTES ==>
              Bounded(files + [(name, bytes)], declared, start)
  {
    LastFile(files, name, bytes);
  }

  /** What extraction of accepted files leaves. */
  function Extracted(es: seq<(string, FileEntry)>, members: map<string, Member>): seq<(string, Bytes)>
    requires forall i :: 0 <= i < |es| ==> EntryName(es[i]) in members
  {
    seq(|es|, i requires 0 <= i < |es| => (EntryName(es[i]), members[EntryName(es[i])].content))
  }

  function EntryNames(es: seq<(string, FileEntry)>): set<string> {
    set i | 0 <= i < |es| :: EntryName(es[i])
  }

  /** Every declared file matches its member, and no name is a directory of another. */
  predicate FilesOk(es: seq<(string, FileEntry)>, declared: map<string, Expected>, members: map<string, Member>)
    requires forall i :: 0 <= i < |es| ==> EntryName(es[i]) in declared && EntryName(es[i]) in members
  {
    && (forall i :: 0 <= i < |es| ==> MemberMatches(members[EntryName(es[i])], declared[EntryName(es[i])]))
    && ConflictFree(EntryNames(es))
  }

  /** The loop over the declared files (backup_migration.py:669-707), in the order of the declaration. */
  method ExtractFiles(es: seq<(string, FileEntry)>, declared: map<string, Expected>, members: map<string, Member>,
                      start: nat)
    returns (ok: bool, files: seq<(string, Bytes)>)
    requires DeclarationOk(es, start) && declared == Declared(es)
    requires forall i :: 0 <= i < |es| ==> EntryName(es[i]) in declared && EntryName(es[i]) in members
    ensures ok <==> FilesOk(es, declared, members)
    ensures ok ==> files == Extracted(es, members)
    ensures Bounded(files, declared, start)
  {
    hide SafeMember, MemberMatches, Bounded, Weight, Sizes, EntryOk, DeclarationOk, Declared, ConflictFree,
         EntryNames, NamesOf;
    var target := new Target(start);
    NothingYet(es, declared, start);
    var k := 0;
    while k < |es|
      invariant 0 <= k <= |es| && fresh(target)
      invariant target.files == Extracted(es[..k], members) && Bounded(target.files, declared, start)
      invariant target.total == start + Weight(target.files) && Weight(target.files) == Sizes(es[..k])
      invariant forall i :: 0 <= i < k ==> MemberMatches(members[EntryName(es[i])], declared[EntryName(es[i])])
      invariant ConflictFree(EntryNames(es[..k]))
    {
      var name := EntryName(es[k]);
      var expected, info := declared[name], members[name];
      NextFile(es, declared, members, k, start);
      if info.fileSize != expected.size {
        return false, target.files;
      }
      if exists i :: 0 <= i < k && Conflict(EntryName(es[i]), name) {
        return false, target.files;
      }
      ghost var before := target.files;
      Extend(before, name, info.content, declared, start);
      var written := target.Stream(name, expected, info, declared, start);
      if !written {
        return false, target.files;
      }
      k := k + 1;
    }
    assert es[..k] == es;
    return true, target.files;
  }

  lemma NothingYet(es: seq<(string, FileEntry)>, declared: map<string, Expected>, start: nat)
    requires DeclarationOk(es, start)
    ensures es[..0] == [] && Sizes([]) == 0 && Weight([]) == 0 && Bounded([], declared, start)
    ensures ConflictFree(EntryNames([]))
  {
    forall i | 0 <= i < |es| ensures EntrySize(es[i]) >= 0 {
      assert EntryOk(es[i]);
    }
    EntriesGrow(es, 0);
  }

  /** The sizes after one more file. */
  lemma NextSize(es: seq<(string, FileEntry)>, declared: map<string, Expected>, k: nat, start: nat)
    requires k < |es| && DeclarationOk(es, start) && declared == Declared(es) && EntryName(es[k]) in declared
    ensures Sizes(es[..k + 1]) == Sizes(es[..k]) + declared[EntryName(es[k])].size
    ensures start + Sizes(es[..k + 1]) <= MAX_EXTRACTED_BYTES
  {
    hide Declared, EntryOk, EntryName, EntrySize, Sizes;
    NextEntry(es, k);
    DeclaredAt(es, k);
    forall i | 0 <= i < |es| ensures EntrySize(es[i]) >= 0 {
      SizeOfOk(es[i]);
    }
    EntriesGrow(es, k + 1);
  }

  lemma SizeOfOk(e: (string, FileEntry))
    requires EntryOk(e)
    ensures EntrySize(e) >= 0
  {
  }

  lemma NameOf(es: seq<(string, FileEntry)>, k: nat, n: string)
    requires k <= |es|
    ensures n in EntryNames(es[..k]) <==> exists i :: 0 <= i < k && EntryName(es[i]) == n
  {
    if i :| 0 <= i < k && EntryName(es[i]) == n {
      assert EntryName(es[..k][i]) == n;
    }
    if n in EntryNames(es[..k]) {
      var i :| 0 <= i < k && EntryName(es[..k][i]) == n;
      assert EntryName(es[i]) == n;
    }
  }

  /** The names after one more file. */
  lemma NextName(es: seq<(string, FileEntry)>, k: nat)
    requires k < |es| && ConflictFree(EntryNames(es[..k]))
    ensures ConflictFree(EntryNames(es[..k + 1])) <==>
              !exists i :: 0 <= i < k && Conflict(EntryName(es[i]), EntryName(es[k]))
    ensures ConflictFree(EntryNames(es)) ==> ConflictFree(EntryNames(es[..k + 1]))
  {
    hide EntryNames, Conflict, EntryName;
    NamesGrow(es, k);
    NoSelfConflict(EntryName(es[k]));
    forall n ensures n in EntryNames(es[..k]) <==> exists i :: 0 <= i < k && EntryName(es[i]) == n {
      NameOf(es, k, n);
    }
    forall n | n in EntryNames(es[..k + 1]) ensures n in EntryNames(es) {
      NameOf(es, k + 1, n);
      NameOf(es, |es|, n);
      assert es[..|es|] == es;
    }
    forall a: string, b: string ensures Conflict(a, b) == Conflict(b, a) {
      ConflictIsMutual(a, b);
    }
  }

  lemma ConflictIsMutual(a: string, b: string)
    ensures Conflict(a, b) == Conflict(b, a)
  {
  }

  lemma NextFile(es: seq<(string, FileEntry)>, declared: map<string, Expected>, members: map<string, Member>, k: nat,
                 start: nat)
    requires k < |es| && DeclarationOk(es, start) && declared == Declared(es)
    requires forall i :: 0 <= i < |es| ==> EntryName(es[i]) in declared && EntryName(es[i]) in members
    requires ConflictFree(EntryNames(es[..k]))
    ensures Extracted(es[..k + 1], members) ==
              Extracted(es[..k], members) + [(EntryName(es[k]), members[EntryName(es[k])].content)]
    ensures Sizes(es[..k + 1]) == Sizes(es[..k]) + declared[EntryName(es[k])].size
    ensures start + Sizes(es[..k + 1]) <= MAX_EXTRACTED_BYTES
    ensures ConflictFree(EntryNames(es[..k + 1])) <==>
              !exists i :: 0 <= i < k && Conflict(EntryName(es[i]), EntryName(es[k]))
    ensures FilesOk(es, declared, members) ==>
              MemberMatches(members[EntryName(es[k])], declared[EntryName(es[k])])
                && ConflictFree(EntryNames(es[..k + 1]))
    ensures MemberMatches(members[EntryName(es[k])], declared[EntryName(es[k])]) <==>
            members[EntryName(es[k])].fileSize == declared[EntryName(es[k])].size
            && |members[EntryName(es[k])].content| == declared[EntryName(es[k])].size
            && Sha256(members[EntryName(es[k])].content) == declared[EntryName(es[k])].sha256
  {
    hide DeclarationOk, Declared, Sizes, EntryName, EntryNames, ConflictFree, Conflict;
    NextSize(es, declared, k, start);
    NextName(es, k);
  }

  lemma NamesGrow(es: seq<(string, FileEntry)>, k: nat)
    requires k < |es|
    ensures EntryNames(es[..k + 1]) == EntryNames(es[..k]) + {EntryName(es[k])}
  {
    hide EntryNames, EntryName;
    forall n ensures n in EntryNames(es[..k + 1]) <==> n in EntryNames(es[..k]) + {EntryName(es[k])} {
      NameOf(es, k, n);
      NameOf(es, k + 1, n);
    }
  }

  lemma NoSelfConflict(name: string)
    ensures !Conflict(name, name)
  {
    assert |name + "/"| > |name|;
  }

  lemma {:induction false} DeclaredAt(es: seq<(string, FileEntry)>, k: nat)
    requires k < |es| && (forall i :: 0 <= i < |es| ==> EntryOk(es[i]))
    requires forall i, j :: 0 <= i < j < |es| ==> EntryName(es[i]) != EntryName(es[j])
    ensures EntryOk(es[k]) && EntryName(es[k]) in Declared(es)
    ensures Declared(es)[EntryName(es[k])] == Expected(es[k].1.sha256, es[k].1.size.value)
    ensures EntrySize(es[k]) == es[k].1.size.value
  {
    assert EntryOk(es[k]);
    if k < |es| - 1 {
      DeclaredAt(es[..|es| - 1], k);
    }
  }

  // ----- Whole packages -----

  predicate NonBlank(password: string) {
    exists i :: 0 <= i < |password| && password[i] != ' ' && password[i] != '\t' && password[i] != '\n'
      && password[i] != '\r'
  }

  predicate HeaderOk(m: Manifest) {
    m.format == PACKAGE_FORMAT && (m.version == 1 || m.version == 2) && m.files.Some?
  }

  /** The archive as far as it can be judged before its manifest is understood. */
  predicate Opens(p: Package, password: string) {
    p.size <= MAX_PACKAGE_BYTES && p.isZip && NonBlank(password) && MembersOk(p.members) && password == p.password
    && Index(p.members)[MANIFEST_NAME].fileSize <= MAX_MANIFEST_BYTES
    && |Index(p.members)[MANIFEST_NAME].content| == Index(p.members)[MANIFEST_NAME].fileSize
  }

  /** The manifest describes the members of the archive, one by one and nothing else. */
  predicate Describes(m: Manifest, members: map<string, Member>, manifestSize: nat) {
    && HeaderOk(m) && DeclarationOk(m.files.value, manifestSize) && StructureOk(m, Declared(m.files.value))
    && Declared(m.files.value).Keys == members.Keys
    && (forall i :: 0 <= i < |m.files.value| ==>
          EntryName(m.files.value[i]) in Declared(m.files.value) && EntryName(m.files.value[i]) in members)
    && FilesOk(m.files.value, Declared(m.files.value), members)
  }

  predicate Acceptable(p: Package, password: string, parse: Bytes -> Option<Manifest>) {
    Opens(p, password)
    && var bytes := Index(p.members)[MANIFEST_NAME].content;
       parse(bytes).Some? && Describes(parse(bytes).value, Index(p.members) - {MANIFEST_NAME}, |bytes|)
  }

  lemma NamesDeclared(es: seq<(string, FileEntry)>)
    requires forall i :: 0 <= i < |es| ==> EntryOk(es[i])
    ensures forall i :: 0 <= i < |es| ==> EntryName(es[i]) in Declared(es)
  {
    DeclaredIs(es);
  }

  /**
   `_extract_verified_package`: a package is accepted exactly when its archive is sound and its
   manifest describes it; then what was written is the declared files with the contents of their
   members, each of the declared size and digest. In every case what was written stays within
   the limits.
   */
  method Extract(p: Package, password: string, parse: Bytes -> Option<Manifest>)
    returns (r: Option<Manifest>, files: seq<(string, Bytes)>)
    ensures r.Some? <==> Acceptable(p, password, parse)
    ensures r.Some? ==> r == parse(Index(p.members)[MANIFEST_NAME].content) && r.value.files.Some?
                        && files == Extracted(r.value.files.value, Index(p.members) - {MANIFEST_NAME})
    ensures Weight(files) <= MAX_EXTRACTED_BYTES
  {
    hide MembersOk, Index, StructureOk, DeclarationOk, Declared, FilesOk, Bounded, EntryOk, EntryName, NonBlank;
    files := [];
    if p.size > MAX_PACKAGE_BYTES || !p.isZip || !NonBlank(password) {
      return None, files;
    }
    var ok, members, info := ValidatedMembers(p.members);
    if !ok || password != p.password {
      return None, files;
    }
    var bytes := ReadManifest(info.value);
    if bytes.None? || parse(bytes.value).None? {
      return None, files;
    }
    var m := parse(bytes.value).value;
    if !HeaderOk(m) {
      return None, files;
    }
    var declared := ReadDeclaration(m.files.value, |bytes.value|);
    if declared.None? {
      return None, files;
    }
    var sound := ValidateStructure(m, declared.value);
    if !sound || declared.value.Keys != members.Keys {
      return None, files;
    }
    AllOk(m.files.value, |bytes.value|);
    NamesDeclared(m.files.value);
    var complete;
    complete, files := ExtractFiles(m.files.value, declared.value, members, |bytes.value|);
    BoundedTotal(files, declared.value, |bytes.value|);
    r := if complete then Some(m) else None;
  }

  lemma AllOk(es: seq<(string, FileEntry)>, start: nat)
    requires DeclarationOk(es, start)
    ensures forall i :: 0 <= i < |es| ==> EntryOk(es[i])
  {
  }

  // ----- What acceptance means -----

  /** The members that are accepted, told by their headers. */
  lemma MembersMean(ms: seq<Member>)
    ensures MembersOk(ms) <==>
            && (forall i :: 0 <= i < |ms| ==>
                  var m := ms[i];
                  !m.dir && !m.symlink && m.encrypted && m.fileSize >= 0 && SafeMember(m.filename).Some?)
            && (forall i, j :: 0 <= i < j < |ms| ==> SafeMember(ms[i].filename) != SafeMember(ms[j].filename))
            && (exists i :: 0 <= i < |ms| && SafeMember(ms[i].filename) == Some("manifest.json"))
            && DeclaredSize(ms) <= 8589934592
  {
    hide SafeMember, Index, DeclaredSize;
    IndexIs(ms);
    if forall i :: 0 <= i < |ms| ==> MemberOk(ms[i]) {
      forall i | 0 <= i < |ms| ensures SafeMember(ms[i].filename) == Some(Name(ms[i])) {
        assert MemberOk(ms[i]);
      }
    }
  }

  /** The size of a list of members is the sum of what their headers say. */
  lemma SizesAddUp(ms: seq<Member>, m: Member)
    ensures DeclaredSize([]) == 0 && DeclaredSize(ms + [m]) == DeclaredSize(ms) + m.fileSize
  {
    assert (ms + [m])[..|ms|] == ms;
  }

  /** One entry of the file list that is accepted. */
  lemma EntryMeans(e: (string, FileEntry))
    ensures EntryOk(e) <==>
            && SafeMember(e.0).Some? && SafeMember(e.0) != Some("manifest.json")
            && e.1.Entry? && (e.1.sha256.Sha256? || e.1.sha256.OtherHex?) && e.1.size.Some? && e.1.size.value >= 0
    ensures EntryOk(e) ==> EntryName(e) == SafeMember(e.0).value && EntrySize(e) == e.1.size.value
  {
  }

  /** A library entry that is accepted: its identifier, its type, and a file of the right kind at the right place. */
  lemma LibraryMeans(e: LibraryEntry)
    ensures LibraryOk(e) <==>
            && e.Library? && e.id != ""
            && (forall i :: 0 <= i < |e.id| ==>
                  var c := e.id[i];
                  'A' <= c <= 'Z' || 'a' <= c <= 'z' || '0' <= c <= '9' || c == '_' || c == '-')
            && SafeMember(e.path).Some? && e.files.Some?
            && ((&& e.databaseType == "text_media_v1"
                 && (exists i :: 0 <= i < |e.files.value| && e.files.value[i].0 == "native_package")
                 && (forall i :: 0 <= i < |e.files.value| ==>
                       && e.files.value[i].0 == "native_package"
                       && SafeMember(e.files.value[i].1) == Some("databases/text_media_v1/" + e.id + ".tmkb")))
                || (&& e.databaseType == "livingmemory_v8"
                    && (e.empty || exists i :: 0 <= i < |e.files.value| && e.files.value[i].0 == "livingmemory_db")
                    && (forall i :: 0 <= i < |e.files.value| ==>
                          var (kind, path) := e.files.value[i];
                          && SafeMember(path).Some? && SafeMember(e.path).value + "/" <= SafeMember(path).value
                          && ((kind == "livingmemory_db" && Leaf(SafeMember(path).value) == "livingmemory.db")
                              || (kind == "conversations_db" && Leaf(SafeMember(path).value) == "conversations.db")))))
  {
    hide SafeMember, Leaf;
    assert "databases/" + TEXT_MEDIA + "/" == "databases/text_media_v1/";
    if e.Library? && e.files.Some? {
      forall i | 0 <= i < |e.files.value| && e.databaseType == TEXT_MEDIA
        ensures FileOk(e, e.files.value[i]) <==>
                e.files.value[i].0 == "native_package"
                && SafeMember(e.files.value[i].1) == Some("databases/text_media_v1/" + e.id + ".tmkb")
      {
      }
    }
  }

  /** The members a manifest calls for. */
  lemma RequiredMeans(m: Manifest, n: string)
    requires m.scope.Some? && m.scope.value.libraries.Some? && m.scope.value.providers.Some? && m.libraries.Some?
    ensures n in Required(m) <==>
            || n == "config/global.json"
            || (m.scope.value.providers.value && n == "providers/providers.json")
            || (m.scope.value.libraries.value && n == "libraries/libraries.json")
            || (exists k :: 0 <= k < |m.libraries.value| &&
                  var e := m.libraries.value[k];
                  e.Library? && e.files.Some?
                  && (n == (if SafeMember(e.path).Some? then SafeMember(e.path).value else "") + "/library.json"
                      || exists i :: 0 <= i < |e.files.value| && SafeMember(e.files.value[i].1) == Some(n)))
  {
    hide SafeMember;
    LibraryMembersMean(m.libraries.value, n);
    if k :| 0 <= k < |m.libraries.value| && CalledFor(m.libraries.value[k], n) {
      assert m.libraries.value[k].Library?;
    }
  }

  /** The entry itself and its files. */
  predicate CalledFor(e: LibraryEntry, n: string) {
    e.Library? && e.files.Some?
    && (n == Base(e) + "/library.json"
        || exists i :: 0 <= i < |e.files.value| && SafeMember(e.files.value[i].1) == Some(n))
  }

  lemma {:induction false} LibraryMembersMean(es: seq<LibraryEntry>, n: string)
    ensures n in LibraryMembers(es) <==> exists k :: 0 <= k < |es| && CalledFor(es[k], n)
  {
    hide SafeMember;
    if es != [] {
      var front := es[..|es| - 1];
      LibraryMembersMean(front, n);
      if k :| 0 <= k < |es| && CalledFor(es[k], n) {
        assert k < |front| ==> CalledFor(front[k], n);
      }
      if k :| 0 <= k < |front| && CalledFor(front[k], n) {
        assert CalledFor(es[k], n);
      }
      LastCalls(es[|es| - 1], n);
    }
  }

  lemma LastCalls(e: LibraryEntry, n: string)
    ensures CalledFor(e, n) <==>
            e.Library? && e.files.Some? && n in {Base(e) + "/library.json"} + FileMembers(e.files.value)
  {
    hide SafeMember;
  }

  /** The library entries that are accepted: each for itself, and no two with the same database or the same path. */
  lemma LibrariesMean(es: seq<LibraryEntry>)
    ensures LibrariesOk(es) <==>
            && (forall i :: 0 <= i < |es| ==> LibraryOk(es[i]) && es[i].Library?)
            && (forall i, j :: 0 <= i < j < |es| ==>
                  (es[i].databaseType, es[i].id) != (es[j].databaseType, es[j].id)
                  && SafeMember(es[i].path) != SafeMember(es[j].path))
  {
    forall i | 0 <= i < |es| && LibraryOk(es[i]) ensures es[i].Library? && SafeMember(es[i].path) == Some(Base(es[i])) {
      NamesOfLibrary(es[i]);
    }
    hide SafeMember, LibraryOk, Base;
    assert forall i :: 0 <= i < |es| && es[i].Library? ==> Ref(es[i]) == (es[i].databaseType, es[i].id);
  }

  lemma NamesOfLibrary(e: LibraryEntry)
    requires LibraryOk(e)
    ensures e.Library? && SafeMember(e.path) == Some(Base(e))
  {
    hide SafeMember, FileOk, Names;
  }

  /** The structure that is accepted. */
  lemma StructureMeans(m: Manifest, declared: map<string, Expected>)
    ensures StructureOk(m, declared) <==>
            && m.scope.Some? && m.scope.value.libraries.Some? && m.scope.value.providers.Some? && m.libraries.Some?
            && var es := m.libraries.value;
               && (es != [] ==> m.scope.value.libraries.value) && LibrariesOk(es)
               && (m.scope.value.libraries.value ==>
                     exists i :: 0 <= i < |es| && es[i].Library? && m.defaultDatabase == (es[i].databaseType, es[i].id))
               && Required(m) <= declared.Keys
               && (forall n :: n in declared && |n| >= 5 && n[|n| - 5..] == ".json" ==> declared[n].size <= 67108864)
  {
    hide SafeMember, Required, LibrariesOk, Refers, IsJson;
    JsonMeans(declared);
    if m.libraries.Some? && LibrariesOk(m.libraries.value) {
      RefersMeans(m.libraries.value, m.defaultDatabase);
    }
  }

  lemma RefersMeans(es: seq<LibraryEntry>, ref: (string, string))
    requires LibrariesOk(es)
    ensures Refers(es, ref) <==> exists i :: 0 <= i < |es| && es[i].Library? && ref == (es[i].databaseType, es[i].id)
  {
    hide LibrariesOk, LibraryOk, SafeMember;
    LibrariesMean(es);
    if i :| 0 <= i < |es| && Ref(es[i]) == ref {
      assert es[i].Library?;
    }
  }

  lemma JsonMeans(declared: map<string, Expected>)
    ensures (forall n :: n in declared && IsJson(n) ==> declared[n].size <= MAX_CONFIG_JSON_BYTES) <==>
            forall n :: n in declared && |n| >= 5 && n[|n| - 5..] == ".json" ==> declared[n].size <= 67108864
  {
  }

  /** What is asked of the archive and of the head of its manifest. */
  lemma HeadMeans(p: Package, password: string, m: Manifest)
    ensures HeaderOk(m) <==> m.format == "personalityrag.prag" && (m.version == 1 || m.version == 2) && m.files.Some?
    ensures Opens(p, password) <==>
            && p.size <= 2147483648 && p.isZip && MembersOk(p.members) && password == p.password
            && (exists i :: 0 <= i < |password| && password[i] !in " \t\n\r")
            && MANIFEST_NAME in Index(p.members)
            && var manifest := Index(p.members)[MANIFEST_NAME];
               manifest.fileSize <= 8388608 && |manifest.content| == manifest.fileSize
  {
    hide Index;
    if MembersOk(p.members) {
      ManifestIsThere(p.members);
    }
    hide MembersOk;
    forall i | 0 <= i < |password|
      ensures password[i] !in " \t\n\r" <==>
              password[i] != ' ' && password[i] != '\t' && password[i] != '\n' && password[i] != '\r'
    {
      assert " \t\n\r" == [' ', '\t', '\n', '\r'];
    }
  }

  /**
   What an accepted package delivers: files that are each of the declared size and digest, under
   distinct safe names none of which is a directory of another, complete for the scope and the library
   entries of the manifest, and within the limits.
   */
  lemma AcceptedIsComplete(p: Package, password: string, parse: Bytes -> Option<Manifest>)
    requires Acceptable(p, password, parse)
    ensures p.size <= 2147483648 && p.isZip && password == p.password
    ensures MANIFEST_NAME in Index(p.members)
    ensures var bytes := Index(p.members)[MANIFEST_NAME].content;
      && |bytes| <= 8388608 && parse(bytes).Some?
      && var m := parse(bytes).value;
         && m.format == "personalityrag.prag" && (m.version == 1 || m.version == 2) && m.files.Some?
         && m.scope.Some? && m.scope.value.libraries.Some? && m.scope.value.providers.Some? && m.libraries.Some?
         && |bytes| + Sizes(m.files.value) <= 8589934592
         && (forall i :: 0 <= i < |m.files.value| ==>
               var name := SafeMember(m.files.value[i].0);
               && name.Some? && name.value in Index(p.members) && m.files.value[i].1.Entry?
               && var content := Index(p.members)[name.value].content;
                  Sha256(content) == m.files.value[i].1.sha256 && Some(|content|) == m.files.value[i].1.size)
         && (forall n :: n in Required(m) ==>
               exists i :: 0 <= i < |m.files.value| && SafeMember(m.files.value[i].0) == Some(n))
  {
    hide Index, MembersOk, SafeMember, Required, LibrariesOk, FilesOk, DeclarationOk, EntryOk, EntryName, Declared,
         Sizes;
    ManifestIsThere(p.members);
    var bytes := Index(p.members)[MANIFEST_NAME].content;
    var m := parse(bytes).value;
    DeliveredAsDeclared(m.files.value, |bytes|, Index(p.members) - {MANIFEST_NAME});
    AllOk(m.files.value, |bytes|);
    DeclaredIs(m.files.value);
    forall n | n in Required(m)
      ensures exists i :: 0 <= i < |m.files.value| && SafeMember(m.files.value[i].0) == Some(n)
    {
      var i :| 0 <= i < |m.files.value| && EntryName(m.files.value[i]) == n;
      EntryMeans(m.files.value[i]);
    }
  }

  lemma ManifestIsThere(ms: seq<Member>)
    requires MembersOk(ms)
    ensures MANIFEST_NAME in Index(ms)
  {
  }

  lemma DeliveredAsDeclared(es: seq<(string, FileEntry)>, start: nat, members: map<string, Member>)
    requires DeclarationOk(es, start)
    requires forall i :: 0 <= i < |es| ==> EntryName(es[i]) in Declared(es) && EntryName(es[i]) in members
    requires FilesOk(es, Declared(es), members)
    ensures start + Sizes(es) <= 8589934592
    ensures forall i :: 0 <= i < |es| ==>
              && SafeMember(es[i].0) == Some(EntryName(es[i])) && es[i].1.Entry?
              && var content := members[EntryName(es[i])].content;
                 Sha256(content) == es[i].1.sha256 && Some(|content|) == es[i].1.size
  {
    hide SafeMember, Declared, EntryOk, EntryName, Sizes, ConflictFree, EntryNames;
    forall i | 0 <= i < |es|
      ensures SafeMember(es[i].0) == Some(EntryName(es[i])) && es[i].1.Entry?
      ensures var content := members[EntryName(es[i])].content;
        Sha256(content) == es[i].1.sha256 && Some(|content|) == es[i].1.size
    {
      EntryMeans(es[i]);
      DeclaredAt(es, i);
    }
  }

  /** No file of an accepted package takes the place of a directory of another. */
  lemma NoneInTheWay(names: set<string>, a: string, b: string)
    requires ConflictFree(names) && a in names && b in names
    ensures !(a + "/" <= b)
  {
    assert !Conflict(a, b);
  }

  // ----- Writing -----

  /** The file list of a manifest: the names in their sorted order, which is given. */
  function Listing(files: map<string, Bytes>, order: seq<string>): seq<(string, FileEntry)>
    requires forall n :: n in order ==> n in files
  {
    seq(|order|, i requires 0 <= i < |order| => (order[i], Entry(Sha256(files[order[i]]), Some(|files[order[i]]|))))
  }

  function Stored(name: string, content: Bytes): Member {
    Member(name, false, false, true, |content|, content)
  }

  function Packed(files: map<string, Bytes>, order: seq<string>, manifest: Bytes): seq<Member>
    requires forall n :: n in order ==> n in files
  {
    seq(|order|, i requires 0 <= i < |order| => Stored(order[i], files[order[i]])) + [Stored(MANIFEST_NAME, manifest)]
  }

  ghost predicate Sorted(files: map<string, Bytes>, order: seq<string>) {
    && (forall n :: n in order <==> n in files)
    && (forall i, j :: 0 <= i < j < |order| ==> order[i] != order[j])
  }

  method BuildListing(files: map<string, Bytes>, order: seq<string>)
    returns (listing: seq<(string, FileEntry)>, total: nat)
    requires forall n :: n in order ==> n in files
    ensures listing == Listing(files, order) && total == Sizes(listing)
  {
    listing, total := [], 0;
    for k := 0 to |order|
      invariant listing == Listing(files, order)[..k] && total == Sizes(listing)
    {
      var content := files[order[k]];
      NextEntry(Listing(files, order), k);
      listing := listing + [(order[k], Entry(Sha256(content), Some(|content|)))];
      assert listing == Listing(files, order)[..k + 1];
      total := total + |content|;
    }
    assert listing == Listing(files, order);
  }

  method BuildMembers(files: map<string, Bytes>, order: seq<string>, manifest: Bytes)
    returns (members: Option<seq<Member>>)
    requires forall n :: n in order ==> n in files
    ensures members.Some? <==> forall i :: 0 <= i < |order| ==> SafeMember(order[i]).Some?
    ensures members.Some? ==> members.value == Packed(files, order, manifest)
  {
    hide SafeMember;
    var stored: seq<Member> := [];
    for k := 0 to |order|
      invariant stored == Packed(files, order, manifest)[..k] && forall i :: 0 <= i < k ==> SafeMember(order[i]).Some?
    {
      if SafeMember(order[k]).None? {
        return None;
      }
      stored := stored + [Stored(order[k], files[order[k]])];
    }
    stored := stored + [Stored(MANIFEST_NAME, manifest)];
    assert stored == Packed(files, order, manifest);
    return Some(stored);
  }

  /** `_write_package`; `size` is what the archive takes on the disk. */
  method WritePackage(files: map<string, Bytes>, order: seq<string>, m: Manifest, encode: Manifest -> Bytes,
                      password: string, size: nat)
    returns (p: Option<Package>)
    requires Sorted(files, order)
    ensures var listed := m.(files := Some(Listing(files, order)));
      && (p.Some? <==>
            |encode(listed)| + Sizes(Listing(files, order)) <= MAX_EXTRACTED_BYTES && NonBlank(password)
            && (forall i :: 0 <= i < |order| ==> SafeMember(order[i]).Some?) && size <= MAX_PACKAGE_BYTES)
      && (p.Some? ==> p.value == Package(size, true, password, Packed(files, order, encode(listed))))
  {
    hide SafeMember, NonBlank, Listing, Packed, Sizes;
    var listing, extracted := BuildListing(files, order);
    var bytes := encode(m.(files := Some(listing)));
    if |bytes| + extracted > MAX_EXTRACTED_BYTES || !NonBlank(password) {
      return None;
    }
    var members := BuildMembers(files, order, bytes);
    if members.None? || size > MAX_PACKAGE_BYTES {
      return None;
    }
    return Some(Package(size, true, password, members.value));
  }

  // ----- The round trip -----

  lemma {:induction false} SizesOfPacked(files: map<string, Bytes>, order: seq<string>, manifest: Bytes, k: nat)
    requires (forall n :: n in order ==> n in files) && k <= |order|
    ensures DeclaredSize(Packed(files, order, manifest)[..k]) == Sizes(Listing(files, order)[..k])
  {
    if k > 0 {
      SizesOfPacked(files, order, manifest, k - 1);
      NextEntry(Listing(files, order), k - 1);
      NextMember(Packed(files, order, manifest), k - 1);
    } else {
      assert Packed(files, order, manifest)[..0] == [] && Listing(files, order)[..0] == [];
    }
  }

  predicate AllSafe(order: seq<string>) {
    forall i :: 0 <= i < |order| ==> SafeMember(order[i]) == Some(order[i])
  }

  function StoredAll(files: map<string, Bytes>, order: seq<string>): map<string, Member>
    requires forall n :: n in order ==> n in files
  {
    map n | n in order :: Stored(n, files[n])
  }

  /** What the listing of files is meant to declare. */
  function Expectations(files: map<string, Bytes>): map<string, Expected> {
    map n | n in files :: Expected(Sha256(files[n]), |files[n]|)
  }

  lemma SafeNames(order: seq<string>, k: nat, content: Bytes)
    requires AllSafe(order) && k < |order|
    ensures Name(Stored(order[k], content)) == order[k] && MemberOk(Stored(order[k], content))
    ensures order[k] != MANIFEST_NAME ==>
              EntryOk((order[k], Entry(Sha256(content), Some(|content|))))
                && EntryName((order[k], Entry(Sha256(content), Some(|content|)))) == order[k]
  {
  }

  lemma OneMoreName(order: seq<string>, k: nat, n: string)
    requires k < |order|
    ensures n in order[..k + 1] <==> n in order[..k] || n == order[k]
  {
    assert order[..k + 1] == order[..k] + [order[k]];
  }

  /** The members of a written archive, by name. */
  lemma {:induction false} IndexOfPacked(files: map<string, Bytes>, order: seq<string>, manifest: Bytes, k: nat)
    requires (forall n :: n in order ==> n in files) && k <= |order| && AllSafe(order)
    ensures Index(Packed(files, order, manifest)[..k]) == StoredAll(files, order[..k])
  {
    hide Index, AllSafe, Name, StoredAll, Packed, Stored;
    PackedAt(files, order, manifest, k);
    if k > 0 {
      IndexOfPacked(files, order, manifest, k - 1);
      NextMember(Packed(files, order, manifest), k - 1);
      SafeNames(order, k - 1, files[order[k - 1]]);
      OneMoreStored(files, order, k - 1);
    } else {
      NothingStored(files, order);
    }
  }

  lemma PackedAt(files: map<string, Bytes>, order: seq<string>, manifest: Bytes, k: nat)
    requires (forall n :: n in order ==> n in files) && k <= |order|
    ensures var ms := Packed(files, order, manifest);
      |ms| == |order| + 1 && ms[..0] == [] && (k > 0 ==> ms[k - 1] == Stored(order[k - 1], files[order[k - 1]]))
  {
  }

  lemma NothingStored(files: map<string, Bytes>, order: seq<string>)
    requires forall n :: n in order ==> n in files
    ensures StoredAll(files, order[..0]) == map[] && Index([]) == map[]
  {
  }

  lemma OneMoreStored(files: map<string, Bytes>, order: seq<string>, k: nat)
    requires (forall n :: n in order ==> n in files) && k < |order|
    ensures StoredAll(files, order[..k + 1]) ==
              StoredAll(files, order[..k])[order[k] := Stored(order[k], files[order[k]])]
  {
    forall n ensures n in order[..k + 1] <==> n in order[..k] || n == order[k] {
      OneMoreName(order, k, n);
    }
  }

  lemma ManifestIsSafe()
    ensures SafeMember(MANIFEST_NAME) == Some(MANIFEST_NAME) && AllSafe([MANIFEST_NAME])
  {
    assert AllProper([MANIFEST_NAME]) && Join([MANIFEST_NAME]) == MANIFEST_NAME;
    NormalIsAccepted(MANIFEST_NAME);
  }

  lemma PackedEnds(files: map<string, Bytes>, order: seq<string>, manifest: Bytes)
    requires forall n :: n in order ==> n in files
    ensures var ms := Packed(files, order, manifest);
      |ms| == |order| + 1 && ms[..|order| + 1] == ms && ms[|order|] == Stored(MANIFEST_NAME, manifest)
    ensures Listing(files, order)[..|order|] == Listing(files, order) && order[..|order|] == order
  {
  }

  lemma PackedIndex(files: map<string, Bytes>, order: seq<string>, manifest: Bytes)
    requires (forall n :: n in order ==> n in files) && AllSafe(order)
    ensures Index(Packed(files, order, manifest)) ==
              StoredAll(files, order)[MANIFEST_NAME := Stored(MANIFEST_NAME, manifest)]
    ensures DeclaredSize(Packed(files, order, manifest)) == Sizes(Listing(files, order)) + |manifest|
  {
    hide Index, DeclaredSize, Sizes, AllSafe, Name, Packed, Listing, StoredAll, Stored;
    PackedEnds(files, order, manifest);
    IndexOfPacked(files, order, manifest, |order|);
    SizesOfPacked(files, order, manifest, |order|);
    NextMember(Packed(files, order, manifest), |order|);
    ManifestMember(manifest);
  }

  lemma ManifestMember(manifest: Bytes)
    ensures Name(Stored(MANIFEST_NAME, manifest)) == MANIFEST_NAME && MemberOk(Stored(MANIFEST_NAME, manifest))
    ensures Stored(MANIFEST_NAME, manifest).fileSize == |manifest|
  {
    ManifestIsSafe();
    SafeNames([MANIFEST_NAME], 0, manifest);
  }

  lemma PackedMember(files: map<string, Bytes>, order: seq<string>, manifest: Bytes, i: nat)
    requires (forall n :: n in order ==> n in files) && AllSafe(order) && i <= |order|
    ensures MemberOk(Packed(files, order, manifest)[i])
    ensures Name(Packed(files, order, manifest)[i]) == if i < |order| then order[i] else MANIFEST_NAME
  {
    hide AllSafe, Name, MemberOk;
    ManifestMember(manifest);
    if i < |order| {
      SafeNames(order, i, files[order[i]]);
    }
  }

  /** The archive of a written package is sound. */
  lemma PackedIsSound(files: map<string, Bytes>, order: seq<string>, manifest: Bytes)
    requires Sorted(files, order) && MANIFEST_NAME !in files && AllSafe(order)
    requires |manifest| + Sizes(Listing(files, order)) <= MAX_EXTRACTED_BYTES
    ensures MembersOk(Packed(files, order, manifest))
  {
    hide Index, DeclaredSize, Sizes, AllSafe, MemberOk, Name, Listing;
    var ms := Packed(files, order, manifest);
    PackedIndex(files, order, manifest);
    forall i | 0 <= i < |ms| ensures MemberOk(ms[i]) && Name(ms[i]) == if i < |order| then order[i] else MANIFEST_NAME {
      PackedMember(files, order, manifest, i);
    }
    forall i | 0 <= i < |order| ensures order[i] != MANIFEST_NAME {
      assert order[i] in files;
    }
  }

  lemma ListingEntry(files: map<string, Bytes>, order: seq<string>, i: nat)
    requires (forall n :: n in order ==> n in files) && MANIFEST_NAME !in files && AllSafe(order) && i < |order|
    ensures EntryOk(Listing(files, order)[i]) && EntryName(Listing(files, order)[i]) == order[i]
  {
    assert order[i] in files;
    SafeNames(order, i, files[order[i]]);
  }

  function ExpectedOf(files: map<string, Bytes>, order: seq<string>): map<string, Expected>
    requires forall n :: n in order ==> n in files
  {
    map n | n in order :: Expected(Sha256(files[n]), |files[n]|)
  }

  lemma OneMoreExpected(files: map<string, Bytes>, order: seq<string>, k: nat)
    requires (forall n :: n in order ==> n in files) && k < |order|
    ensures var n := order[k];
      ExpectedOf(files, order[..k + 1]) == ExpectedOf(files, order[..k])[n := Expected(Sha256(files[n]), |files[n]|)]
  {
    forall n ensures n in order[..k + 1] <==> n in order[..k] || n == order[k] {
      OneMoreName(order, k, n);
    }
  }

  /** What the listing of a written package declares. */
  lemma {:induction false} DeclaredOfListing(files: map<string, Bytes>, order: seq<string>, k: nat)
    requires (forall n :: n in order ==> n in files) && k <= |order| == |Listing(files, order)|
    requires forall i :: 0 <= i < |order| ==>
               EntryOk(Listing(files, order)[i]) && EntryName(Listing(files, order)[i]) == order[i]
    ensures Declared(Listing(files, order)[..k]) == ExpectedOf(files, order[..k])
  {
    hide EntryOk, EntryName, ExpectedOf, Declared, Listing;
    if k > 0 {
      ListingAt(files, order, k - 1);
      DeclaredOfListing(files, order, k - 1);
      NextEntry(Listing(files, order), k - 1);
      OneMoreExpected(files, order, k - 1);
    } else {
      NoneExpected(files, order);
    }
  }

  lemma NoneExpected(files: map<string, Bytes>, order: seq<string>)
    requires forall n :: n in order ==> n in files
    ensures ExpectedOf(files, order[..0]) == map[] && Declared(Listing(files, order)[..0]) == map[]
  {
  }

  lemma ListingAt(files: map<string, Bytes>, order: seq<string>, i: nat)
    requires (forall n :: n in order ==> n in files) && i < |order|
    ensures |Listing(files, order)| == |order|
    ensures Listing(files, order)[i].1 == Entry(Sha256(files[order[i]]), Some(|files[order[i]]|))
  {
  }

  /** The files in the order of the listing. */
  function Delivered(files: map<string, Bytes>, order: seq<string>): seq<(string, Bytes)>
    requires forall n :: n in order ==> n in files
  {
    seq(|order|, i requires 0 <= i < |order| => (order[i], files[order[i]]))
  }

  /** The listing passes the checks on declarations. */
  lemma ListingIsSound(files: map<string, Bytes>, order: seq<string>, manifestSize: nat)
    requires Sorted(files, order) && MANIFEST_NAME !in files && AllSafe(order)
    requires manifestSize + Sizes(Listing(files, order)) <= MAX_EXTRACTED_BYTES
    ensures DeclarationOk(Listing(files, order), manifestSize) && Declared(Listing(files, order)) == Expectations(files)
    ensures forall i :: 0 <= i < |order| ==> EntryName(Listing(files, order)[i]) == order[i] && order[i] in files
  {
    hide Declared, AllSafe, Sizes, EntryOk, EntryName;
    var es := Listing(files, order);
    forall i | 0 <= i < |order| ensures EntryOk(es[i]) && EntryName(es[i]) == order[i] && order[i] in files {
      assert order[i] in files;
      ListingEntry(files, order, i);
    }
    DeclaredOfListing(files, order, |order|);
    assert es[..|order|] == es && order[..|order|] == order;
  }

  /** Its files match their members, and are delivered. */
  lemma ListingMatches(files: map<string, Bytes>, order: seq<string>)
    requires Sorted(files, order)
    requires forall i :: 0 <= i < |order| ==> EntryName(Listing(files, order)[i]) == order[i] && order[i] in files
    ensures FilesOk(Listing(files, order), Expectations(files), StoredAll(files, order)) <==> ConflictFree(files.Keys)
    ensures Extracted(Listing(files, order), StoredAll(files, order)) == Delivered(files, order)
  {
    hide ConflictFree, EntryName;
    var es := Listing(files, order);
    forall n ensures n in EntryNames(es) <==> n in files {
      if n in files {
        var i :| 0 <= i < |order| && order[i] == n;
        assert EntryName(es[i]) == n;
      }
    }
    assert EntryNames(es) == files.Keys;
  }

  /** The files as a map. */
  predicate SameFiles(written: seq<(string, Bytes)>, files: map<string, Bytes>) {
    && (forall i :: 0 <= i < |written| ==> written[i].0 in files && written[i].1 == files[written[i].0])
    && (forall i, j :: 0 <= i < j < |written| ==> written[i].0 != written[j].0)
    && NamesOf(written) == files.Keys
  }

  lemma DeliveredAreTheFiles(files: map<string, Bytes>, order: seq<string>)
    requires Sorted(files, order)
    ensures SameFiles(Delivered(files, order), files)
  {
    var out := Delivered(files, order);
    forall n ensures n in NamesOf(out) <==> n in files {
      if n in files {
        var i :| 0 <= i < |order| && order[i] == n;
        assert out[i].0 == n;
      }
    }
  }

  lemma NormalNamesAreSafe(files: map<string, Bytes>, order: seq<string>)
    requires Sorted(files, order) && forall n :: n in files ==> Normal(n)
    ensures AllSafe(order)
  {
    forall i | 0 <= i < |order| ensures SafeMember(order[i]) == Some(order[i]) {
      assert order[i] in files;
      NormalIsAccepted(order[i]);
    }
  }

  /** Whether a written archive is acceptable comes down to three things writing does not ask. */
  lemma WrittenIsAcceptable(files: map<string, Bytes>, order: seq<string>, listed: Manifest, manifest: Bytes,
                            parse: Bytes -> Option<Manifest>, p: Package, password: string)
    requires Sorted(files, order) && MANIFEST_NAME !in files && AllSafe(order)
    requires listed.format == PACKAGE_FORMAT && listed.version == PACKAGE_VERSION
    requires listed.files == Some(Listing(files, order))
    requires parse(manifest) == Some(listed)
    requires |manifest| + Sizes(Listing(files, order)) <= MAX_EXTRACTED_BYTES && NonBlank(password)
    requires p.size <= MAX_PACKAGE_BYTES
    requires p == Package(p.size, true, password, Packed(files, order, manifest))
    ensures Acceptable(p, password, parse) <==>
            StructureOk(listed, Expectations(files)) && ConflictFree(files.Keys) && |manifest| <= MAX_MANIFEST_BYTES
    ensures MANIFEST_NAME in Index(p.members) && Index(p.members)[MANIFEST_NAME].content == manifest
    ensures Index(p.members) - {MANIFEST_NAME} == StoredAll(files, order)
    ensures forall i :: 0 <= i < |order| ==> EntryName(Listing(files, order)[i]) in StoredAll(files, order)
    ensures Extracted(Listing(files, order), StoredAll(files, order)) == Delivered(files, order)
  {
    hide StructureOk, ConflictFree, Declared, DeclarationOk, FilesOk, MembersOk, Index, Packed, SameFiles, NonBlank,
         AllSafe, EntryName, Sizes;
    PackedIsSound(files, order, manifest);
    PackedIndex(files, order, manifest);
    ListingIsSound(files, order, |manifest|);
    ListingMatches(files, order);
    assert Index(p.members) - {MANIFEST_NAME} == StoredAll(files, order);
    assert StoredAll(files, order).Keys == files.Keys;
    hide Listing, StoredAll, Extracted;
  }

  /**
   A package that was written from normal names is accepted exactly when its structure is in order,
   no name is a directory of another, and the manifest is not larger than reading allows (writing
   does not ask); and then the very files come out again.
   */
  method RoundTrip(files: map<string, Bytes>, order: seq<string>, m: Manifest, encode: Manifest -> Bytes,
                   parse: Bytes -> Option<Manifest>, password: string, size: nat)
    returns (written: bool, accepted: bool, out: seq<(string, Bytes)>)
    requires Sorted(files, order) && MANIFEST_NAME !in files && forall n :: n in files ==> Normal(n)
    requires m.format == PACKAGE_FORMAT && m.version == PACKAGE_VERSION
    requires var listed := m.(files := Some(Listing(files, order))); parse(encode(listed)) == Some(listed)
    ensures var listed := m.(files := Some(Listing(files, order)));
      written ==> (accepted <==> StructureOk(listed, Expectations(files)) && ConflictFree(files.Keys)
                                 && |encode(listed)| <= MAX_MANIFEST_BYTES)
    ensures accepted ==> written && SameFiles(out, files)
  {
    hide SafeMember, StructureOk, ConflictFree, Normal, SameFiles, Extracted, Acceptable, Packed, Listing, NonBlank,
         Sizes, Index, AllSafe, Expectations;
    NormalNamesAreSafe(files, order);
    var p := WritePackage(files, order, m, encode, password, size);
    written, accepted, out := p.Some?, false, [];
    if p.Some? {
      var listed := m.(files := Some(Listing(files, order)));
      WrittenIsAcceptable(files, order, listed, encode(listed), parse, p.value, password);
      var r;
      DeliveredAreTheFiles(files, order);
      r, out := Extract(p.value, password, parse);
      accepted := r.Some?;
    }
  }
}
