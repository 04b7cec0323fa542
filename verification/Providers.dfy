/**
 Providers with their revision history, and the libraries bound to revisions. A public method of
 the control store is one step; what it commits is kept, what it leaves uncommitted is undone.
 A configuration is the map of its fields to their values; nothing turns a value into the type
 its field is declared with.
 */
module Providers {
  import opened Common
  import opened Values

  type Config = map<string, Value>

  /** A hash tells texts apart, and a text the values it can have been written from. */
  datatype Digest = Sha(written: Value)

  /** `validate_identifier` sees to it that the identifier is text. */
  predicate HasId(c: Config) {
    "id" in c && c["id"].Text?
  }

  function IdOf(c: Config): string
    requires HasId(c)
  {
    c["id"].s
  }

  datatype Provider = Provider(latest: nat, deleted: bool)
  datatype Revision = Revision(config: Config, digest: Digest)
  type Key = (string, nat)

  /** `rerank` is empty when there is none. Libraries are listed by name and identifier. */
  datatype Library = Library(id: string, provider: string, revision: nat, rerank: string, deleted: bool)

  datatype Db = Db(providers: map<string, Provider>, revisions: map<Key, Revision>, libraries: seq<Library>)

  datatype Failure =
    | NotFound | AlreadyExists | InUse | Constraint | NoSuchRevision | NoSuchLibrary | NotBound | StillBound
    | BadSnapshot

  // ----- Functional payload and hash -----

  /** control.py:124-133 */
  function FunctionalPayload(c: Config): Config {
    c - {"display_name"} - {"context_length_mode"} - {"max_context_tokens_source"} - {"index_rebuild_settings"}
      - {"batch_size"} - {"concurrency"} - {"max_retries"}
  }

  /** providers.py:203-217: the hash of the JSON text, with sorted keys. */
  function ConfigHash(c: Config): Digest {
    Sha(Dict(c - {"index_rebuild_settings"} - {"batch_size"} - {"concurrency"} - {"max_retries"}
               - {"display_name"} - {"context_length_mode"} - {"max_context_tokens_source"}))
  }

  /** control.py:135-142: `==` on the two dictionaries. */
  predicate FunctionallyEqual(a: Config, b: Config) {
    Equal(Dict(FunctionalPayload(a)), Dict(FunctionalPayload(b)))
  }

  const OPERATIONAL := {"display_name", "context_length_mode", "max_context_tokens_source", "index_rebuild_settings",
                        "batch_size", "concurrency", "max_retries"}

  /** The functional fields as one value. */
  function Functional(c: Config): Value {
    Dict(c - OPERATIONAL)
  }

  /** The two places leave out the same fields. */
  lemma PayloadIs(c: Config)
    ensures Dict(FunctionalPayload(c)) == Functional(c) && ConfigHash(c) == Sha(Functional(c))
  {
    assert FunctionalPayload(c) == c - OPERATIONAL;
    assert c - {"index_rebuild_settings"} - {"batch_size"} - {"concurrency"} - {"max_retries"}
             - {"display_name"} - {"context_length_mode"} - {"max_context_tokens_source"} == c - OPERATIONAL;
  }

  /**
   How functional equality and equality of the hash are related. Configurations with the same hash
   are functionally equal. Of functionally equal ones the hashes are equal exactly when every
   functional field holds the same form of value: 30 and 30.0, 1 and `true`, 0.0 and -0.0 are equal
   but hash apart.
   */
  lemma HashIsFunctional(a: Config, b: Config)
    ensures ConfigHash(a) == ConfigHash(b) ==> FunctionallyEqual(a, b)
    ensures FunctionallyEqual(a, b) ==>
              (ConfigHash(a) == ConfigHash(b) <==> SameForm(Functional(a), Functional(b)))
  {
    hide Equal, SameForm, Functional, ConfigHash, FunctionalPayload;
    PayloadIs(a);
    PayloadIs(b);
    TextIs(Functional(a), Functional(b));
  }

  /** What that means field by field. */
  lemma FieldByField(a: Config, b: Config)
    ensures FunctionallyEqual(a, b) <==>
            forall f :: f !in OPERATIONAL ==> (f in a <==> f in b) && (f in a ==> Equal(a[f], b[f]))
    ensures ConfigHash(a) == ConfigHash(b) <==>
            forall f :: f !in OPERATIONAL ==>
              (f in a <==> f in b) && (f in a ==> Equal(a[f], b[f]) && SameForm(a[f], b[f]))
  {
    HashIsFunctional(a, b);
    PayloadIs(a);
    PayloadIs(b);
    hide FunctionalPayload, ConfigHash;
    var x, y := a - OPERATIONAL, b - OPERATIONAL;
    assert forall f :: f in x <==> f in a && f !in OPERATIONAL;
    assert forall f :: f in y <==> f in b && f !in OPERATIONAL;
    SameFields(x.Keys, y.Keys, a.Keys, b.Keys);
  }

  lemma SameFields(x: set<string>, y: set<string>, a: set<string>, b: set<string>)
    requires x == a - OPERATIONAL && y == b - OPERATIONAL
    ensures x == y <==> forall f :: f !in OPERATIONAL ==> (f in a <==> f in b)
  {
    if x == y {
      forall f | f !in OPERATIONAL ensures f in a <==> f in b {
        assert f in a <==> f in x;
        assert f in b <==> f in y;
      }
    }
  }

  // ----- Use by libraries -----

  predicate Live(db: Db, p: string) {
    p in db.providers && !db.providers[p].deleted && (p, db.providers[p].latest) in db.revisions
  }

  function LatestConfig(db: Db, p: string): Config
    requires Live(db, p)
  {
    db.revisions[(p, db.providers[p].latest)].config
  }

  /** Whether a library bound to revision `r` of provider `p` must rebuild its index. */
  predicate NeedsRebuild(db: Db, p: string, r: nat) {
    !Live(db, p) || (p, r) !in db.revisions || !FunctionallyEqual(LatestConfig(db, p), db.revisions[(p, r)].config)
  }

  /**
   A knowledge library binds by fingerprint: it must be rebuilt when the hash of the latest revision
   is another one (library_types/text_media_v1/manager.py:1358-1363).
   */
  predicate FingerprintNeedsRebuild(db: Db, p: string, fingerprint: Digest) {
    !Live(db, p) || fingerprint != db.revisions[(p, db.providers[p].latest)].digest
  }

  datatype Use = Embedding(library: string, revision: nat, needsRebuild: bool) | Rerank(library: string)

  function EmbeddingUses(db: Db, rows: seq<Library>, p: string): seq<Use> {
    if rows == [] then []
    else
      var l := rows[|rows| - 1];
      EmbeddingUses(db, rows[..|rows| - 1], p)
      + (if !l.deleted && l.provider == p then [Embedding(l.id, l.revision, NeedsRebuild(db, p, l.revision))] else [])
  }

  function RerankUses(rows: seq<Library>, p: string): seq<Use> {
    if rows == [] then []
    else
      var l := rows[|rows| - 1];
      RerankUses(rows[..|rows| - 1], p) + (if !l.deleted && l.rerank == p then [Rerank(l.id)] else [])
  }

  function Uses(db: Db, p: string): seq<Use> {
    EmbeddingUses(db, db.libraries, p) + RerankUses(db.libraries, p)
  }

  predicate Used(db: Db, p: string) {
    exists i :: 0 <= i < |db.libraries| && !db.libraries[i].deleted
      && (db.libraries[i].provider == p || db.libraries[i].rerank == p)
  }

  lemma NoLibraries(db: Db)
    ensures forall p :: EmbeddingUses(db, [], p) == [] && RerankUses([], p) == []
  {
  }

  lemma NextLibrary(db: Db, rows: seq<Library>, k: nat)
    requires k < |rows|
    ensures forall p ::
              EmbeddingUses(db, rows[..k + 1], p) == EmbeddingUses(db, rows[..k], p)
                + (if !rows[k].deleted && rows[k].provider == p
                   then [Embedding(rows[k].id, rows[k].revision, NeedsRebuild(db, p, rows[k].revision))] else [])
    ensures forall p ::
              RerankUses(rows[..k + 1], p) == RerankUses(rows[..k], p)
                + (if !rows[k].deleted && rows[k].rerank == p then [Rerank(rows[k].id)] else [])
  {
    assert rows[..k + 1][..k] == rows[..k];
  }

  lemma {:induction false} UsedMeansUses(db: Db, rows: seq<Library>, p: string)
    ensures EmbeddingUses(db, rows, p) + RerankUses(rows, p) != [] <==>
            exists i :: 0 <= i < |rows| && !rows[i].deleted && (rows[i].provider == p || rows[i].rerank == p)
  {
    if rows != [] {
      var front := rows[..|rows| - 1];
      UsedMeansUses(db, front, p);
      assert forall i :: 0 <= i < |front| ==> rows[i] == front[i];
    }
  }

  // ----- The invariant -----

  /**
   Every provider's latest revision has a row, every revision has a provider, and rows agree with
   their key and hash.
   */
  ghost predicate Whole(db: Db) {
    && (forall p :: p in db.providers ==> (p, db.providers[p].latest) in db.revisions)
    && (forall k :: k in db.revisions ==>
          && k.0 in db.providers && k.1 >= 1
          && HasId(db.revisions[k].config) && IdOf(db.revisions[k].config) == k.0
          && db.revisions[k].digest == ConfigHash(db.revisions[k].config))
  }

  /** No revision of `p` lies beyond its latest one. */
  predicate NothingAhead(db: Db, p: string) {
    p in db.providers && forall k :: k in db.revisions && k.0 == p ==> k.1 <= db.providers[p].latest
  }

  function Row(config: Config): Revision {
    Revision(config, ConfigHash(config))
  }

  // ----- What the operations do -----

  function Without(db: Db, p: string): Db {
    db.(providers := db.providers - {p}, revisions := map k | k in db.revisions && k.0 != p :: db.revisions[k])
  }

  predicate Purgeable(db: Db, p: string) {
    !Used(db, p) && p in db.providers && db.providers[p].deleted
  }

  function Purged(db: Db, p: string): Db {
    if Purgeable(db, p) then Without(db, p) else db
  }

  /** The history of `from` under the name `to`. */
  function Carried(revisions: map<Key, Revision>, from: string, to: string): map<Key, Revision> {
    map k | k in revisions.Keys + (set j | j in revisions && j.0 == from :: (to, j.1))
            && ((k.0 == to && (from, k.1) in revisions) || (k.0 != from && k in revisions))
      :: if k.0 == to && (from, k.1) in revisions then Row(revisions[(from, k.1)].config["id" := Text(to)])
        else revisions[k]
  }

  function Rebound(rows: seq<Library>, from: string, to: string): seq<Library> {
    if rows == [] then []
    else
      var l := rows[|rows| - 1];
      Rebound(rows[..|rows| - 1], from, to) + [if l.provider == from then l.(provider := to) else l]
  }

  // Updating.

  predicate Enabled(c: Config) {
    "enabled" in c && Truthy(c["enabled"])
  }

  /** Why `update_provider` refuses before it writes anything. */
  function UpdateRefused(db: Db, id: string, config: Config, disabling: bool): Option<Failure>
    requires HasId(config)
  {
    var renaming := IdOf(config) != id;
    if !Live(db, id) then Some(NotFound)
    else if renaming && Used(db, id) then Some(InUse)
    else if !Enabled(config) && disabling && Used(db, id) then Some(InUse)
    else None
  }

  function InPlace(db: Db, id: string, config: Config): Db
    requires Live(db, id)
  {
    db.(revisions := db.revisions[(id, db.providers[id].latest) := Row(config)])
  }

  function Versioned(db: Db, id: string, config: Config): Db
    requires Live(db, id)
  {
    var next := db.providers[id].latest + 1;
    db.(revisions := db.revisions[(id, next) := Row(config)],
        providers := db.providers[id := db.providers[id].(latest := next)])
  }

  function RenamedTo(db: Db, id: string, config: Config): Db
    requires Live(db, id) && HasId(config)
  {
    var to := IdOf(config);
    var next := db.providers[id].latest + 1;
    Db((db.providers - {id})[to := Provider(next, false)],
       Carried(db.revisions, id, to)[(to, next) := Row(config)],
       Rebound(db.libraries, id, to))
  }

  /** `update_provider` that is not refused: the database it leaves and its result. */
  function Updated(db: Db, id: string, config: Config): (Db, Result<Key, Failure>)
    requires Live(db, id) && HasId(config)
  {
    var to := IdOf(config);
    var next := db.providers[id].latest + 1;
    if to == id && FunctionallyEqual(LatestConfig(db, id), config) then (InPlace(db, id, config), Ok((id, next - 1)))
    else if to == id then
      if (id, next) in db.revisions then (db, Err(Constraint)) else (Versioned(db, id, config), Ok((id, next)))
    else
      var clean := Purged(db, to);
      if to in clean.providers then (clean, Err(AlreadyExists))
      else if (id, next) in clean.revisions then (clean, Err(Constraint))
      else (RenamedTo(clean, id, config), Ok((to, next)))
  }

  // Copying.

  function Decimal(n: nat): (r: string)
    ensures |r| >= 1
  {
    (if n < 10 then [] else Decimal(n / 10)) + [['0', '1', '2', '3', '4', '5', '6', '7', '8', '9'][n % 10]]
  }

  function CopyId(id: string, n: nat): string {
    id + "_copy" + (if n == 1 then "" else Decimal(n))
  }

  /** A display name in an f-string; of one that is neither text nor a whole number the print is not modelled. */
  function Printed(v: Value): string {
    match v
    case Text(s) => s
    case Int(i) => if i < 0 then "-" + Decimal(-i) else Decimal(i)
    case _ => ""
  }

  /** The copy is disabled and marked by its display name. */
  function CopyOf(c: Config, to: string, n: nat): Config {
    var name := (if "display_name" in c then Printed(c["display_name"]) else "")
                + "(\U{526F}\U{672C}" + (if n == 1 then "" else Decimal(n)) + ")";
    c["id" := Text(to)]["display_name" := Text(name)]["enabled" := Bool(false)]
  }

  /** Everything of `before` is still there but unused deleted providers, and their rows. */
  ghost predicate Spared(before: Db, after: Db) {
    && after.libraries == before.libraries
    && (forall p :: p in before.providers && !Purgeable(before, p) ==>
       p in after.providers && after.providers[p] == before.providers[p])
    && (forall k :: k in before.revisions && !Purgeable(before, k.0) ==>
       k in after.revisions && after.revisions[k] == before.revisions[k])
  }

  function CopyIds(id: string, n: nat): set<string> {
    set m | 1 <= m < n :: CopyId(id, m)
  }

  /** Every name before the one numbered `n` belongs to a provider that cannot be purged. */
  ghost predicate AllTaken(db: Db, id: string, n: nat) {
    forall m :: 1 <= m < n ==> CopyId(id, m) in db.providers && !Purgeable(db, CopyId(id, m))
  }

  /** Nothing was added either. */
  ghost predicate OnlyPurged(before: Db, after: Db) {
    && Spared(before, after)
    && (forall p :: p in after.providers ==> p in before.providers && after.providers[p] == before.providers[p])
  }

  /** The provider `to` is a fresh, disabled copy of `id`. */
  ghost predicate CopyMade(before: Db, after: Db, id: string, to: string, n: nat) {
    && Live(before, id)
    && to in after.providers && after.providers[to] == Provider(1, false)
    && (to, 1) in after.revisions && after.revisions[(to, 1)] == Row(CopyOf(LatestConfig(before, id), to, n))
    && (to in before.providers ==> Purgeable(before, to))
  }

  lemma {:induction false} DecimalIsInjective(a: nat, b: nat)
    requires Decimal(a) == Decimal(b)
    ensures a == b
  {
    var x, y := Decimal(a), Decimal(b);
    assert x[|x| - 1] == y[|y| - 1];
    assert a % 10 == b % 10;
    assert x[..|x| - 1] == (if a < 10 then [] else Decimal(a / 10));
    assert y[..|y| - 1] == (if b < 10 then [] else Decimal(b / 10));
    assert a < 10 <==> b < 10;
    if a >= 10 {
      DecimalIsInjective(a / 10, b / 10);
    }
  }

  lemma CopyIdsDiffer(id: string, m: nat, n: nat)
    requires 1 <= m < n
    ensures CopyId(id, m) != CopyId(id, n)
  {
    if CopyId(id, m) == CopyId(id, n) {
      var k := |id + "_copy"|;
      assert CopyId(id, m)[k..] == (if m == 1 then "" else Decimal(m));
      assert CopyId(id, n)[k..] == Decimal(n);
      if m > 1 {
        DecimalIsInjective(m, n);
      }
    }
  }

  // Debug reset.

  /** The revision a reset aims at: zero or none means the latest one. */
  function ResetTarget(db: Db, id: string, latest: Option<nat>): nat
    requires id in db.providers
  {
    if latest.Some? && latest.value != 0 then latest.value else db.providers[id].latest
  }

  function BoundAll(rows: seq<Library>, id: string, revision: nat): (r: seq<Library>)
    ensures |r| == |rows|
  {
    seq(|rows|, i requires 0 <= i < |rows| =>
      if rows[i].provider == id && !rows[i].deleted then rows[i].(revision := revision) else rows[i])
  }

  function BoundOne(rows: seq<Library>, library: string, revision: nat): (r: seq<Library>)
    ensures |r| == |rows|
  {
    seq(|rows|, i requires 0 <= i < |rows| => if rows[i].id == library then rows[i].(revision := revision) else rows[i])
  }

  predicate Listed(rows: seq<Library>, library: string) {
    exists i :: 0 <= i < |rows| && rows[i].id == library && !rows[i].deleted
  }

  predicate Bound(rows: seq<Library>, library: string, id: string) {
    exists i :: 0 <= i < |rows| && rows[i].id == library && !rows[i].deleted && rows[i].provider == id
  }

  /** The bindings asked for one by one; the first one that cannot be made undoes everything. */
  function BoundEach(db: Db, id: string, rows: seq<Library>, pairs: seq<(string, nat)>): Result<seq<Library>, Failure>
    decreases |pairs|
  {
    if pairs == [] then Ok(rows)
    else
      var (library, revision) := pairs[0];
      if (id, revision) !in db.revisions then Err(NoSuchRevision)
      else if !Listed(rows, library) then Err(NoSuchLibrary)
      else if !Bound(rows, library, id) then Err(NotBound)
      else BoundEach(db, id, BoundOne(rows, library, revision), pairs[1..])
  }

  predicate BoundBeyond(rows: seq<Library>, id: string, revision: nat) {
    exists i :: 0 <= i < |rows| && rows[i].provider == id && rows[i].revision > revision && !rows[i].deleted
  }

  function Trimmed(revisions: map<Key, Revision>, id: string, revision: nat): map<Key, Revision> {
    map k | k in revisions && !(k.0 == id && k.1 > revision) :: revisions[k]
  }

  /** `debug_reset_provider_revisions` */
  function Reset(db: Db, id: string, latest: Option<nat>, bindAll: bool, pairs: seq<(string, nat)>,
                 trim: bool): Result<Db, Failure>
  {
    if id !in db.providers || db.providers[id].deleted then Err(NotFound)
    else
      var target := ResetTarget(db, id, latest);
      if (id, target) !in db.revisions then Err(NoSuchRevision)
      else
        var each := BoundEach(db, id, if bindAll then BoundAll(db.libraries, id, target) else db.libraries, pairs);
        if each.Err? then Err(each.error)
        else if trim && BoundBeyond(each.value, id, target) then Err(StillBound)
        else Ok(Db(db.providers[id := db.providers[id].(latest := target)],
                   if trim then Trimmed(db.revisions, id, target) else db.revisions, each.value))
  }

  // Restoring a snapshot.

  datatype Snapshot = Snapshot(providers: seq<(string, nat)>, revisions: seq<(string, int, Config)>)

  predicate DistinctIds(rows: seq<(string, nat)>) {
    forall i, j :: 0 <= i < j < |rows| ==> rows[i].0 != rows[j].0
  }

  predicate InSnapshot(s: Snapshot, id: string) {
    exists i :: 0 <= i < |s.providers| && s.providers[i].0 == id
  }

  predicate LatestListed(s: Snapshot, p: (string, nat)) {
    exists j :: 0 <= j < |s.revisions| && s.revisions[j].0 == p.0 && s.revisions[j].1 == p.1
  }

  /** A revision of a provider outside the snapshot is passed over; any other must carry its provider's name. */
  predicate RowOk(s: Snapshot, j: nat)
    requires j < |s.revisions|
  {
    var row := s.revisions[j];
    InSnapshot(s, row.0) ==> HasId(row.2) && IdOf(row.2) == row.0 && row.1 > 0
  }

  predicate Twice(s: Snapshot, i: nat, j: nat)
    requires i < j < |s.revisions|
  {
    InSnapshot(s, s.revisions[i].0) && s.revisions[i].0 == s.revisions[j].0 && s.revisions[i].1 == s.revisions[j].1
  }

  /** What restoring accepts: control.py:1804-1844, and no revision twice. */
  ghost predicate Restorable(s: Snapshot) {
    && DistinctIds(s.providers)
    && (forall j :: 0 <= j < |s.revisions| ==> RowOk(s, j))
    && (forall i :: 0 <= i < |s.providers| ==> LatestListed(s, s.providers[i]))
    && (forall i, j :: 0 <= i < j < |s.revisions| ==> !Twice(s, i, j))
  }

  /** The tables say what the snapshot says, and nothing else. */
  ghost predicate Says(db: Db, s: Snapshot) {
    && (forall p :: p in db.providers <==> InSnapshot(s, p))
    && (forall i :: 0 <= i < |s.providers| ==> db.providers[s.providers[i].0] == Provider(s.providers[i].1, false))
    && (forall k :: k in db.revisions ==> InSnapshot(s, k.0))
    && RowsSay(db.revisions, s, |s.revisions|)
  }

  ghost predicate RowsSay(rows: map<Key, Revision>, s: Snapshot, upTo: nat)
    requires upTo <= |s.revisions|
  {
    && (forall j :: 0 <= j < upTo && InSnapshot(s, s.revisions[j].0) ==>
          && s.revisions[j].1 > 0 && (s.revisions[j].0, s.revisions[j].1) in rows
          && rows[(s.revisions[j].0, s.revisions[j].1)] == Row(s.revisions[j].2))
    && (forall k :: k in rows ==> Said(k, rows[k], s, upTo))
  }

  ghost predicate Said(k: Key, row: Revision, s: Snapshot, upTo: nat)
    requires upTo <= |s.revisions|
  {
    exists j :: 0 <= j < upTo && s.revisions[j].0 == k.0 && s.revisions[j].1 == k.1 && row == Row(s.revisions[j].2)
                && InSnapshot(s, k.0)
  }

  class Store {
    var providers: map<string, Provider>
    var revisions: map<Key, Revision>
    var libraries: seq<Library>

    ghost function Value(): Db
      reads this
    {
      Db(providers, revisions, libraries)
    }

    /** `provider_usage_map`: the uses of every requested provider, in one pass over the libraries. */
    method UsageMap(targets: set<string>) returns (result: map<string, seq<Use>>)
      ensures result.Keys == targets && forall p :: p in targets ==> result[p] == Uses(Value(), p)
    {
      hide NeedsRebuild, EmbeddingUses, RerankUses;
      var embedding, rerank := CountUses(Db(providers, revisions, libraries), libraries, targets);
      result := map p | p in targets :: embedding[p] + rerank[p];
    }

    static method CountUses(db: Db, rows: seq<Library>, targets: set<string>)
      returns (embedding: map<string, seq<Use>>, rerank: map<string, seq<Use>>)
      ensures embedding.Keys == targets && rerank.Keys == targets
      ensures forall p :: p in targets ==> embedding[p] == EmbeddingUses(db, rows, p)
      ensures forall p :: p in targets ==> rerank[p] == RerankUses(rows, p)
    {
      hide NeedsRebuild, EmbeddingUses, RerankUses;
      embedding := map p | p in targets :: [];
      rerank := map p | p in targets :: [];
      NoLibraries(db);
      assert rows[..0] == [];
      var k := 0;
      while k < |rows|
        invariant 0 <= k <= |rows| && embedding.Keys == targets && rerank.Keys == targets
        invariant forall p :: p in targets ==> embedding[p] == EmbeddingUses(db, rows[..k], p)
        invariant forall p :: p in targets ==> rerank[p] == RerankUses(rows[..k], p)
      {
        NextLibrary(db, rows, k);
        embedding, rerank := CountUse(db, rows[k], embedding, rerank);
        k := k + 1;
      }
      assert rows[..k] == rows;
    }

    /** One library row of that pass. */
    static method CountUse(db: Db, l: Library, embedding: map<string, seq<Use>>, rerank: map<string, seq<Use>>)
      returns (e: map<string, seq<Use>>, r: map<string, seq<Use>>)
      ensures e.Keys == embedding.Keys && r.Keys == rerank.Keys
      ensures forall p :: p in e ==>
                e[p] == embedding[p] + (if !l.deleted && l.provider == p
                                        then [Embedding(l.id, l.revision, NeedsRebuild(db, p, l.revision))] else [])
      ensures forall p :: p in r ==> r[p] == rerank[p] + (if !l.deleted && l.rerank == p then [Rerank(l.id)] else [])
    {
      hide NeedsRebuild;
      e, r := embedding, rerank;
      if !l.deleted && l.provider in e {
        e := e[l.provider := e[l.provider] + [Embedding(l.id, l.revision, NeedsRebuild(db, l.provider, l.revision))]];
      }
      if !l.deleted && l.rerank in r {
        r := r[l.rerank := r[l.rerank] + [Rerank(l.id)]];
      }
    }

    method InUseBy(p: string) returns (used: bool)
      ensures used == Used(Value(), p)
    {
      var usage := UsageMap({p});
      UsedMeansUses(Value(), libraries, p);
      return usage[p] != [];
    }

    method PurgeDeleted(p: string) returns (purged: bool)
      modifies this`providers, this`revisions
      ensures purged == Purgeable(old(Value()), p) && Value() == Purged(old(Value()), p)
    {
      var used := InUseBy(p);
      if used {
        return false;
      }
      if p !in providers || !providers[p].deleted {
        return false;
      }
      revisions := map k | k in revisions && k.0 != p :: revisions[k];
      providers := providers - {p};
      return true;
    }

    method CreateProvider(config: Config) returns (r: Result<Key, Failure>)
      requires HasId(config)
      modifies this`providers, this`revisions
      ensures var id := IdOf(config);
        r == if id in old(providers) then Err(AlreadyExists) else if (id, 1) in old(revisions) then Err(Constraint)
          else Ok((id, 1))
      ensures var id := IdOf(config);
        Value() == if r.Err? then old(Value())
                   else old(Value()).(providers := old(providers)[id := Provider(1, false)],
                                      revisions := old(revisions)[(id, 1) := Row(config)])
    {
      var id := IdOf(config);
      if id in providers {
        return Err(AlreadyExists);
      }
      if (id, 1) in revisions {
        return Err(Constraint);
      }
      providers := providers[id := Provider(1, false)];
      revisions := revisions[(id, 1) := Row(config)];
      return Ok((id, 1));
    }

    method EditInPlace(id: string, config: Config)
      requires Live(Value(), id)
      modifies this`revisions
      ensures Value() == InPlace(old(Value()), id, config)
    {
      revisions := revisions[(id, providers[id].latest) := Row(config)];
    }

    method EditVersioned(id: string, config: Config) returns (r: Result<Key, Failure>)
      requires Live(Value(), id)
      modifies this`revisions, this`providers
      ensures var next := old(providers)[id].latest + 1;
        r == if (id, next) in old(revisions) then Err(Constraint) else Ok((id, next))
      ensures Value() == if r.Ok? then Versioned(old(Value()), id, config) else old(Value())
    {
      var next := providers[id].latest + 1;
      if (id, next) in revisions {
        return Err(Constraint);
      }
      revisions := revisions[(id, next) := Row(config)];
      providers := providers[id := providers[id].(latest := next)];
      return Ok((id, next));
    }

    /** control.py:2101-2124: the rows of one provider get the new name, one after the other. */
    method CarryHistory(from: string, to: string)
      requires from != to && (forall k :: k in revisions ==> k.0 != to && "id" in revisions[k].config)
      modifies this`revisions
      ensures revisions == Carried(old(revisions), from, to)
    {
      hide Row;
      ghost var before := revisions;
      var rest := set k | k in revisions && k.0 == from;
      while rest != {}
        invariant rest <= set k | k in before && k.0 == from
        invariant forall k :: k in revisions <==>
                    if k.0 == from then k in rest
                    else if k.0 == to then (from, k.1) in before && (from, k.1) !in rest else k in before
        invariant forall k :: k in revisions ==>
                    revisions[k] == if k.0 == to then Row(before[(from, k.1)].config["id" := Text(to)]) else before[k]
      {
        var k :| k in rest;
        rest := rest - {k};
        var row := Row(revisions[k].config["id" := Text(to)]);
        revisions := (revisions - {k})[(to, k.1) := row];
        assert (from, k.1) == k;
      }
      assert revisions == Carried(before, from, to);
    }

    method RenameTo(id: string, config: Config) returns (r: Result<Key, Failure>)
      requires Live(Value(), id) && HasId(config) && IdOf(config) != id && Whole(Value()) && IdOf(config) !in providers
      modifies this
      ensures var next := old(providers)[id].latest + 1;
        r == if (id, next) in old(revisions) then Err(Constraint) else Ok((IdOf(config), next))
      ensures Value() == if r.Ok? then RenamedTo(old(Value()), id, config) else old(Value())
    {
      hide Whole, Carried, Row, Rebound, FunctionallyEqual;
      var to, next := IdOf(config), providers[id].latest + 1;
      if (id, next) in revisions {
        return Err(Constraint);
      }
      NoHistory(Value(), to);
      CarryHistory(id, to);
      revisions := revisions[(to, next) := Row(config)];
      libraries := Rebound(libraries, id, to);
      providers := (providers - {id})[to := Provider(next, false)];
      return Ok((to, next));
    }

    /** `update_provider`; `disabling` says that the change itself switches the provider off. */
    method UpdateProvider(id: string, config: Config, disabling: bool) returns (r: Result<Key, Failure>)
      requires HasId(config) && Whole(Value())
      modifies this
      ensures var refused := UpdateRefused(old(Value()), id, config, disabling);
        if refused.Some? then r == Err(refused.value) && Value() == old(Value())
        else (Value(), r) == Updated(old(Value()), id, config)
    {
      hide Whole, Used, FunctionallyEqual, Row, Carried, Rebound;
      if id !in providers || providers[id].deleted || (id, providers[id].latest) !in revisions {
        return Err(NotFound);
      }
      var to := IdOf(config);
      if to != id || (disabling && !Enabled(config)) {
        var used := InUseBy(id);
        if used {
          return Err(InUse);
        }
      }
      if to == id {
        var current := revisions[(id, providers[id].latest)].config;
        if FunctionallyEqual(current, config) {
          EditInPlace(id, config);
          return Ok((id, providers[id].latest));
        }
        r := EditVersioned(id, config);
      } else {
        r := RenameAway(id, config);
      }
    }

    method RenameAway(id: string, config: Config) returns (r: Result<Key, Failure>)
      requires Live(Value(), id) && HasId(config) && IdOf(config) != id && Whole(Value())
      modifies this
      ensures (Value(), r) == Updated(old(Value()), id, config)
    {
      hide Whole, Used, FunctionallyEqual, Row, Carried, Rebound, HasId, IdOf, Updated, RenamedTo, Purged;
      var to := IdOf(config);
      AwayIs(Value(), id, config);
      PurgingKeepsWhole(Value(), to);
      var purged := PurgeDeleted(to);
      if to in providers {
        return Err(AlreadyExists);
      }
      r := RenameTo(id, config);
    }

    /** The search of `copy_provider` for a free name: names of purgeable providers are made free on the way. */
    method FreeCopyId(id: string) returns (n: nat)
      requires Whole(Value())
      modifies this`providers, this`revisions
      ensures Whole(Value()) && n >= 1 && CopyId(id, n) !in providers && OnlyPurged(old(Value()), Value())
      ensures AllTaken(old(Value()), id, n)
    {
      hide Whole, Used, Spared, OnlyPurged, CopyId, CopyIds, Purgeable, Purged, AllTaken;
      n := 1;
      PurgedSelf(Value());
      NoneTried(Value(), id);
      while true
        invariant n >= 1 && Whole(Value()) && OnlyPurged(old(Value()), Value()) && AllTaken(old(Value()), id, n)
        decreases |providers.Keys - CopyIds(id, n)|
      {
        var candidate := CopyId(id, n);
        ghost var before := Value();
        PurgingKeepsWhole(Value(), candidate);
        PurgedOnce(old(Value()), Value(), candidate);
        var purged := PurgeDeleted(candidate);
        if candidate !in providers {
          return;
        }
        NextTried(old(Value()), id, n);
        OneFewer(before.providers.Keys, providers.Keys, CopyIds(id, n), candidate);
        n := n + 1;
      }
    }

    /** `copy_provider`, to a given identifier or, without one, to the first free one. */
    method CopyProvider(id: string, newId: string) returns (r: Result<Key, Failure>)
      requires Whole(Value())
      modifies this`providers, this`revisions
      ensures Whole(Value()) && Spared(old(Value()), Value())
      ensures !Live(old(Value()), id) <==> r == Err(NotFound)
      ensures newId == "" ==> r.Ok? || r == Err(NotFound)
      ensures r == Err(AlreadyExists) ==> newId != "" && newId in old(providers) && !Purgeable(old(Value()), newId)
      ensures r.Ok? ==> exists n :: (
                CopyMade(old(Value()), Value(), id, r.value.0, n)
                && (if newId != "" then r.value.0 == newId && n == 1
                    else r.value.0 == CopyId(id, n) && AllTaken(old(Value()), id, n)))
      ensures r.Ok? ==> r.value.1 == 1
    {
      hide Whole, Used, Spared, OnlyPurged, CopyId, CopyOf, FunctionallyEqual, Row, Purgeable, Purged, CopyMade;
      PurgedSelf(Value());
      if id !in providers || providers[id].deleted || (id, providers[id].latest) !in revisions {
        return Err(NotFound);
      }
      var config := revisions[(id, providers[id].latest)].config;
      var candidate, n;
      if newId != "" {
        candidate, n := newId, 1;
        PurgingKeepsWhole(Value(), candidate);
        PurgedOnce(Value(), Value(), candidate);
        var purged := PurgeDeleted(candidate);
      } else {
        n := FreeCopyId(id);
        candidate := CopyId(id, n);
      }
      r := PlaceCopy(old(Value()), id, config, candidate, n);
    }

    /** The copy is created under `to`, unless that name is still taken. */
    method PlaceCopy(ghost before: Db, id: string, config: Config, to: string, n: nat) returns (r: Result<Key, Failure>)
      requires Whole(Value()) && OnlyPurged(before, Value()) && Live(before, id) && config == LatestConfig(before, id)
      requires to in providers ==> !Purgeable(before, to)
      modifies this`providers, this`revisions
      ensures Whole(Value()) && Spared(before, Value())
      ensures r == if to in old(providers) then Err(AlreadyExists) else Ok((to, 1))
      ensures r.Ok? ==> CopyMade(before, Value(), id, to, n)
    {
      hide Whole, Used, Spared, OnlyPurged, CopyOf, FunctionallyEqual, Row, Purgeable;
      var copy := CopyOf(config, to, n);
      CopyNames(config, to, n);
      PlacingCopy(before, Value(), copy);
      r := CreateProvider(copy);
    }

    method DeleteProvider(id: string) returns (r: Result<(), Failure>)
      modifies this`providers, this`revisions
      ensures r == if Used(old(Value()), id) then Err(InUse) else if id !in old(providers) then Err(NotFound)
              else Ok(())
      ensures Value() == if r.Ok? then Without(old(Value()), id) else old(Value())
    {
      var used := InUseBy(id);
      if used {
        return Err(InUse);
      }
      if id !in providers {
        return Err(NotFound);
      }
      revisions := map k | k in revisions && k.0 != id :: revisions[k];
      providers := providers - {id};
      return Ok(());
    }

    /** The loop over the bindings asked for. */
    method BindEach(id: string, pairs: seq<(string, nat)>) returns (failure: Option<Failure>)
      modifies this`libraries
      ensures var each := BoundEach(old(Value()), id, old(libraries), pairs);
        if failure.Some? then each == Err(failure.value) else each == Ok(libraries)
    {
      var k := 0;
      while k < |pairs|
        invariant 0 <= k <= |pairs|
        invariant BoundEach(old(Value()), id, old(libraries), pairs) ==
                    BoundEach(old(Value()), id, libraries, pairs[k..])
      {
        var library, revision := pairs[k].0, pairs[k].1;
        if (id, revision) !in revisions {
          return Some(NoSuchRevision);
        }
        if !Listed(libraries, library) {
          return Some(NoSuchLibrary);
        }
        if !Bound(libraries, library, id) {
          return Some(NotBound);
        }
        libraries := BoundOne(libraries, library, revision);
        k := k + 1;
      }
      return None;
    }

    /** A reset that fails leaves its transaction uncommitted. */
    method DebugReset(id: string, latest: Option<nat>, bindAll: bool, pairs: seq<(string, nat)>, trim: bool)
      returns (failure: Option<Failure>)
      modifies this
      ensures var r := Reset(old(Value()), id, latest, bindAll, pairs, trim);
        if failure.Some? then r == Err(failure.value) && Value() == old(Value()) else r == Ok(Value())
    {
      hide BoundEach, BoundAll, BoundBeyond, Trimmed;
      if id !in providers || providers[id].deleted {
        return Some(NotFound);
      }
      var target := ResetTarget(Db(providers, revisions, libraries), id, latest);
      if (id, target) !in revisions {
        return Some(NoSuchRevision);
      }
      var saved := libraries;
      if bindAll {
        libraries := BoundAll(libraries, id, target);
      }
      BindingsReadRevisions(Value(), old(Value()), id, libraries, pairs);
      failure := BindEach(id, pairs);
      if failure.None? && trim && BoundBeyond(libraries, id, target) {
        failure := Some(StillBound);
      }
      if failure.Some? {
        libraries := saved;
        return;
      }
      providers := providers[id := providers[id].(latest := target)];
      if trim {
        revisions := Trimmed(revisions, id, target);
      }
    }

    /** `debug_patch_provider_revision`: a revision is written over, whatever the change; its number stays. */
    method DebugPatch(id: string, revision: nat, config: Config) returns (failure: Option<Failure>)
      requires HasId(config) && IdOf(config) == id
      modifies this`revisions
      ensures failure == if id in providers && !providers[id].deleted && (id, revision) in old(revisions) then None
                         else Some(NotFound)
      ensures Value() == if failure.Some? then old(Value())
                         else old(Value()).(revisions := old(revisions)[(id, revision) := Row(config)])
    {
      hide Row;
      if id !in providers || providers[id].deleted || (id, revision) !in revisions {
        return Some(NotFound);
      }
      revisions := revisions[(id, revision) := Row(config)];
      return None;
    }

    /** `restore_provider_snapshot`: everything is replaced, or nothing. */
    method Restore(s: Snapshot) returns (failure: Option<Failure>)
      modifies this`providers, this`revisions
      ensures failure.None? <==> Restorable(s)
      ensures failure.None? ==> Says(Value(), s)
      ensures failure.Some? ==> Value() == old(Value())
    {
      hide Row;
      if !DistinctIds(s.providers) {
        return Some(BadSnapshot);
      }
      for j := 0 to |s.revisions|
        invariant forall m :: 0 <= m < j ==> RowOk(s, m)
      {
        if !RowOk(s, j) {
          return Some(BadSnapshot);
        }
      }
      for i := 0 to |s.providers|
        invariant forall m :: 0 <= m < i ==> LatestListed(s, s.providers[m])
      {
        if !LatestListed(s, s.providers[i]) {
          return Some(BadSnapshot);
        }
      }
      var newProviders := InsertProviders(s);
      var newRevisions;
      failure, newRevisions := InsertRevisions(s);
      if failure.None? {
        providers, revisions := newProviders, newRevisions;
      }
    }

    static method InsertProviders(s: Snapshot) returns (rows: map<string, Provider>)
      requires DistinctIds(s.providers)
      ensures forall p :: p in rows <==> InSnapshot(s, p)
      ensures forall i :: 0 <= i < |s.providers| ==>
                s.providers[i].0 in rows && rows[s.providers[i].0] == Provider(s.providers[i].1, false)
    {
      rows := map[];
      for i := 0 to |s.providers|
        invariant forall p :: p in rows <==> exists m :: 0 <= m < i && s.providers[m].0 == p
        invariant forall m :: 0 <= m < i ==>
                    s.providers[m].0 in rows && rows[s.providers[m].0] == Provider(s.providers[m].1, false)
      {
        rows := rows[s.providers[i].0 := Provider(s.providers[i].1, false)];
      }
    }

    /** The inserts of a restore; a primary key that occurs twice undoes everything. */
    static method InsertRevisions(s: Snapshot) returns (failure: Option<Failure>, rows: map<Key, Revision>)
      requires forall j :: 0 <= j < |s.revisions| ==> RowOk(s, j)
      ensures failure.None? <==> forall i, j :: 0 <= i < j < |s.revisions| ==> !Twice(s, i, j)
      ensures failure.None? ==> RowsSay(rows, s, |s.revisions|)
    {
      hide Row;
      rows := map[];
      for j := 0 to |s.revisions|
        invariant RowsSay(rows, s, j)
        invariant forall a, b :: 0 <= a < b < j ==> !Twice(s, a, b)
      {
        var (p, r, config) := s.revisions[j];
        assert RowOk(s, j);
        if InSnapshot(s, p) {
          var key: Key := (p, r);
          if key in rows {
            assert Said(key, rows[key], s, j);
            var i :| 0 <= i < j && s.revisions[i].0 == p && s.revisions[i].1 == r;
            assert Twice(s, i, j);
            return Some(Constraint), rows;
          }
          InsertOne(rows, s, j);
          rows := rows[key := Row(config)];
        }
      }
      return None, rows;
    }

    /** Any sequence of operations, with any arguments: the history stays whole throughout. */
    method AnyHistory(steps: nat)
      requires Whole(Value())
      modifies this
      ensures Whole(Value())
    {
      hide Whole, Updated, Reset, Restorable, Says, Purged, Spared, Without, CopyMade, Row, Used;
      for k := 0 to steps
        invariant Whole(Value())
      {
        var choice: int, id: string, config: Config, flag: bool := *, *, *, *;
        var before := Db(providers, revisions, libraries);
        if choice == 0 && HasId(config) {
          if IdOf(config) !in providers {
            CreatingKeepsWhole(before, config);
          }
          var created := CreateProvider(config);
        } else if choice == 1 && HasId(config) {
          UpdatingKeepsWhole(before, id, config);
          var updated := UpdateProvider(id, config, flag);
        } else if choice == 2 {
          var newId: string := *;
          var copied := CopyProvider(id, newId);
        } else if choice == 3 {
          PurgingKeepsWhole(before, id);
          var deleted := DeleteProvider(id);
        } else if choice == 4 {
          var latest: Option<nat>, pairs: seq<(string, nat)>, trim: bool := *, *, *;
          ResettingKeepsWhole(before, id, latest, flag, pairs, trim);
          var reset := DebugReset(id, latest, flag, pairs, trim);
        } else if choice == 5 && HasId(config) && IdOf(config) == id {
          var revision: nat := *;
          PatchingKeepsWhole(before, id, revision, config);
          var patched := DebugPatch(id, revision, config);
        } else {
          var snapshot: Snapshot := *;
          var restored := Restore(snapshot);
          if restored.None? {
            RestoringIsWhole(Value(), snapshot);
          }
        }
      }
    }
  }

  lemma InsertOne(rows: map<Key, Revision>, s: Snapshot, j: nat)
    requires j < |s.revisions| && RowsSay(rows, s, j) && InSnapshot(s, s.revisions[j].0) && s.revisions[j].1 > 0
    requires (s.revisions[j].0, s.revisions[j].1) !in rows
    ensures RowsSay(rows[(s.revisions[j].0, s.revisions[j].1) := Row(s.revisions[j].2)], s, j + 1)
    ensures forall i :: 0 <= i < j ==> !Twice(s, i, j)
  {
    hide Row;
    var after := rows[(s.revisions[j].0, s.revisions[j].1) := Row(s.revisions[j].2)];
    forall k | k in after ensures Said(k, after[k], s, j + 1) {
      if k in rows && k != (s.revisions[j].0, s.revisions[j].1 as nat) {
        assert Said(k, rows[k], s, j);
      }
    }
  }

  lemma {:induction false} BindingsReadRevisions(a: Db, b: Db, id: string, rows: seq<Library>,
                                                 pairs: seq<(string, nat)>)
    requires a.revisions == b.revisions
    ensures BoundEach(a, id, rows, pairs) == BoundEach(b, id, rows, pairs)
    decreases |pairs|
  {
    if pairs != [] {
      BindingsReadRevisions(a, b, id, BoundOne(rows, pairs[0].0, pairs[0].1), pairs[1..]);
    }
  }

  lemma PurgedSelf(db: Db)
    ensures OnlyPurged(db, db) && Spared(db, db)
  {
  }

  lemma PurgedOnce(before: Db, db: Db, p: string)
    requires OnlyPurged(before, db)
    ensures OnlyPurged(before, Purged(db, p)) && Spared(before, Purged(db, p))
    ensures p in Purged(db, p).providers ==> p in before.providers && !Purgeable(before, p)
    ensures Purged(db, p).providers.Keys <= db.providers.Keys
  {
    assert Used(before, p) <==> Used(db, p);
    forall q | q in before.providers && !Purgeable(before, q) ensures !Purgeable(db, q) {
      assert Used(before, q) <==> Used(db, q);
    }
  }

  lemma CreatingKeepsWhole(db: Db, config: Config)
    requires Whole(db) && HasId(config) && IdOf(config) !in db.providers
    ensures var id := IdOf(config);
      (id, 1) !in db.revisions
      && Whole(db.(providers := db.providers[id := Provider(1, false)],
                   revisions := db.revisions[(id, 1) := Row(config)]))
  {
    hide ConfigHash, HasId, IdOf;
  }

  lemma SparedCreate(before: Db, db: Db, id: string, row: Revision)
    requires OnlyPurged(before, db) && id !in db.providers && (id, 1) !in db.revisions
    ensures id in before.providers ==> Purgeable(before, id)
    ensures Spared(before,
                   db.(providers := db.providers[id := Provider(1, false)], revisions := db.revisions[(id, 1) := row]))
  {
    hide Purgeable;
  }

  lemma PlacingCopy(before: Db, db: Db, copy: Config)
    requires Whole(db) && OnlyPurged(before, db) && HasId(copy)
    ensures Spared(before, db)
    ensures var id := IdOf(copy);
      id !in db.providers ==>
        && (id in before.providers ==> Purgeable(before, id))
        && (id, 1) !in db.revisions
        && var after := db.(providers := db.providers[id := Provider(1, false)],
                            revisions := db.revisions[(id, 1) := Row(copy)]);
           Whole(after) && Spared(before, after)
  {
    PurgedOnly(before, db);
    hide Whole, Spared, OnlyPurged, Purgeable, Row;
    if IdOf(copy) !in db.providers {
      CreatingKeepsWhole(db, copy);
      SparedCreate(before, db, IdOf(copy), Row(copy));
    }
  }

  lemma PurgedOnly(before: Db, db: Db)
    requires OnlyPurged(before, db)
    ensures Spared(before, db)
  {
  }

  lemma InPlaceKeepsWhole(db: Db, id: string, config: Config)
    requires Whole(db) && Live(db, id) && HasId(config) && IdOf(config) == id
    ensures Whole(InPlace(db, id, config))
  {
    hide ConfigHash, HasId, IdOf;
  }

  lemma PatchingKeepsWhole(db: Db, id: string, revision: nat, config: Config)
    requires Whole(db) && HasId(config) && IdOf(config) == id
    ensures (id, revision) in db.revisions ==> Whole(db.(revisions := db.revisions[(id, revision) := Row(config)]))
  {
    hide ConfigHash, HasId, IdOf;
  }

  lemma VersionedKeepsWhole(db: Db, id: string, config: Config)
    requires Whole(db) && Live(db, id) && HasId(config) && IdOf(config) == id
    ensures Whole(Versioned(db, id, config))
  {
    hide ConfigHash, HasId, IdOf;
  }

  lemma CarriedRow(db: Db, from: string, to: string, k: Key)
    requires Whole(db) && from in db.providers && to !in db.providers && k in Carried(db.revisions, from, to)
    ensures k.0 != from && (k.0 == to || k.0 in db.providers) && k.1 >= 1
    ensures var row := Carried(db.revisions, from, to)[k];
      HasId(row.config) && IdOf(row.config) == k.0 && row.digest == ConfigHash(row.config)
  {
    hide ConfigHash;
  }

  lemma CarriedOver(db: Db, from: string, to: string, k: Key)
    requires k in db.revisions && k.0 != from && k.0 != to
    ensures k in Carried(db.revisions, from, to)
  {
  }

  lemma CarriedIsWhole(db: Db, from: string, to: string)
    requires Whole(db) && from in db.providers && to !in db.providers
    ensures var carried := Carried(db.revisions, from, to);
      && (forall k :: k in carried ==>
            && k.0 != from && (k.0 == to || k.0 in db.providers) && k.1 >= 1
            && HasId(carried[k].config) && IdOf(carried[k].config) == k.0
            && carried[k].digest == ConfigHash(carried[k].config))
      && (forall p :: p in db.providers && p != from ==> (p, db.providers[p].latest) in carried)
  {
    hide Carried, ConfigHash, HasId, IdOf;
    var carried := Carried(db.revisions, from, to);
    forall k | k in carried
      ensures k.0 != from && (k.0 == to || k.0 in db.providers) && k.1 >= 1
      ensures HasId(carried[k].config) && IdOf(carried[k].config) == k.0
      ensures carried[k].digest == ConfigHash(carried[k].config)
    {
      CarriedRow(db, from, to, k);
    }
    forall p | p in db.providers && p != from ensures (p, db.providers[p].latest) in carried {
      CarriedOver(db, from, to, (p, db.providers[p].latest));
    }
  }

  lemma RenamingKeepsWhole(db: Db, id: string, config: Config)
    requires Whole(db) && Live(db, id) && HasId(config) && IdOf(config) !in db.providers
    ensures Whole(RenamedTo(db, id, config))
  {
    hide Carried, Rebound, ConfigHash, HasId, IdOf;
    CarriedIsWhole(db, id, IdOf(config));
  }

  lemma UpdatingKeepsWhole(db: Db, id: string, config: Config)
    requires Whole(db) && HasId(config)
    ensures Live(db, id) ==> Whole(Updated(db, id, config).0)
  {
    hide Whole, InPlace, Versioned, RenamedTo, Purged, FunctionallyEqual;
    var to := IdOf(config);
    if Live(db, id) {
      if to == id {
        InPlaceKeepsWhole(db, id, config);
        VersionedKeepsWhole(db, id, config);
      } else {
        PurgingKeepsWhole(db, to);
        PurgingSpares(db, to, id);
        if to !in Purged(db, to).providers {
          RenamingKeepsWhole(Purged(db, to), id, config);
        }
      }
    }
  }

  lemma AwayIs(db: Db, id: string, config: Config)
    requires Live(db, id) && HasId(config) && IdOf(config) != id
    ensures var to, next, clean := IdOf(config), db.providers[id].latest + 1, Purged(db, IdOf(config));
      && Live(clean, id) && clean.providers[id] == db.providers[id]
      && Updated(db, id, config) ==
           (if to in clean.providers then (clean, Err(AlreadyExists))
            else if (id, next) in clean.revisions then (clean, Err(Constraint))
            else (RenamedTo(clean, id, config), Ok((to, next))))
  {
    hide Used, FunctionallyEqual, Row, Carried, Rebound, HasId, IdOf;
    PurgingSpares(db, IdOf(config), id);
  }

  lemma PurgingSpares(db: Db, p: string, other: string)
    requires Live(db, other) && p != other
    ensures Live(Purged(db, p), other) && Purged(db, p).providers[other] == db.providers[other]
  {
  }

  lemma ResettingKeepsWhole(db: Db, id: string, latest: Option<nat>, bindAll: bool, pairs: seq<(string, nat)>,
                            trim: bool)
    requires Whole(db)
    ensures var r := Reset(db, id, latest, bindAll, pairs, trim); r.Ok? ==> Whole(r.value)
  {
    hide BoundEach, BoundAll, BoundBeyond, ConfigHash, HasId, IdOf;
  }

  lemma RestoringIsWhole(db: Db, s: Snapshot)
    requires Restorable(s) && Says(db, s)
    ensures Whole(db)
  {
    forall p | p in db.providers ensures (p, db.providers[p].latest) in db.revisions {
      var i :| 0 <= i < |s.providers| && s.providers[i].0 == p;
      assert LatestListed(s, s.providers[i]);
      var j :| 0 <= j < |s.revisions| && s.revisions[j].0 == p && s.revisions[j].1 == s.providers[i].1;
      assert InSnapshot(s, s.revisions[j].0);
    }
    forall k | k in db.revisions
      ensures k.0 in db.providers && k.1 >= 1 && HasId(db.revisions[k].config) && IdOf(db.revisions[k].config) == k.0
              && db.revisions[k].digest == ConfigHash(db.revisions[k].config)
    {
      assert Said(k, db.revisions[k], s, |s.revisions|);
      var j :| 0 <= j < |s.revisions| && s.revisions[j].0 == k.0 && s.revisions[j].1 == k.1
               && db.revisions[k] == Row(s.revisions[j].2) && InSnapshot(s, k.0);
      assert RowOk(s, j);
    }
  }

  // ----- Edits -----

  lemma EqualConfigs(a: Config, b: Config)
    ensures FunctionallyEqual(a, b) <==> Equal(Functional(a), Functional(b))
  {
    hide Equal, Functional, ConfigHash;
    PayloadIs(a);
    PayloadIs(b);
  }

  /** Functional equality is an equivalence, over configurations with a `nan` too. */
  lemma SameFunction(a: Config, b: Config, c: Config)
    ensures FunctionallyEqual(a, a)
    ensures FunctionallyEqual(a, b) ==> FunctionallyEqual(b, a)
    ensures FunctionallyEqual(a, b) ==> (FunctionallyEqual(a, c) <==> FunctionallyEqual(b, c))
    ensures FunctionallyEqual(a, b) ==> (FunctionallyEqual(c, a) <==> FunctionallyEqual(c, b))
  {
    hide Equal, Functional, FunctionallyEqual;
    var x, y, z := Functional(a), Functional(b), Functional(c);
    EqualConfigs(a, a);
    EqualConfigs(a, b);
    EqualConfigs(b, a);
    EqualConfigs(a, c);
    EqualConfigs(b, c);
    EqualConfigs(c, a);
    EqualConfigs(c, b);
    EqualItself(x);
    if Equal(x, y) {
      EqualBack(x, y);
      Follows(x, y, z);
      Follows(y, x, z);
    }
  }

  lemma Follows(x: Value, y: Value, z: Value)
    requires Equal(x, y)
    ensures Equal(y, z) ==> Equal(x, z)
    ensures Equal(z, x) ==> Equal(z, y)
  {
    hide Equal;
    if Equal(y, z) {
      EqualOn(x, y, z);
    }
    if Equal(z, x) {
      EqualOn(z, x, y);
    }
  }

  /** A library bound to the latest revision never needs a rebuild. */
  lemma LatestNeedsNone(db: Db, p: string)
    requires Live(db, p)
    ensures !NeedsRebuild(db, p, db.providers[p].latest)
  {
    hide FunctionallyEqual;
    SameFunction(LatestConfig(db, p), LatestConfig(db, p), LatestConfig(db, p));
  }

  /**
   The two kinds of libraries, bound to the same revision and built at it: the one that goes by the
   fingerprint must be rebuilt exactly when the other one must, or when a field has changed its form.
   */
  lemma RebuildAnswers(db: Db, p: string, r: nat)
    requires Whole(db) && Live(db, p) && (p, r) in db.revisions
    ensures FingerprintNeedsRebuild(db, p, db.revisions[(p, r)].digest) <==>
            || NeedsRebuild(db, p, r)
            || !SameForm(Functional(LatestConfig(db, p)), Functional(db.revisions[(p, r)].config))
  {
    hide FunctionallyEqual, ConfigHash, SameForm, Functional;
    HashIsFunctional(LatestConfig(db, p), db.revisions[(p, r)].config);
    SameTextSameForm(LatestConfig(db, p), db.revisions[(p, r)].config);
  }

  lemma SameTextSameForm(a: Config, b: Config)
    ensures ConfigHash(a) == ConfigHash(b) ==> SameForm(Functional(a), Functional(b))
  {
    hide Equal, SameForm, Functional, ConfigHash;
    PayloadIs(a);
    PayloadIs(b);
    TextIs(Functional(a), Functional(b));
  }

  /**
   An edit that is functionally equal keeps the revision number and the answer about rebuilding of
   every library bound to a revision, for every provider. The hash at the kept revision, and with
   it the answer for every library bound by fingerprint, stays the same exactly when every
   functional field keeps its form.
   */
  lemma DisplayEditIsSilent(db: Db, id: string, config: Config)
    requires Whole(db) && Live(db, id) && HasId(config) && IdOf(config) == id
    requires FunctionallyEqual(LatestConfig(db, id), config)
    ensures var (after, r) := Updated(db, id, config);
      && r == Ok((id, db.providers[id].latest)) && after.providers == db.providers && after.libraries == db.libraries
      && LatestConfig(after, id) == config
      && (forall p, r :: NeedsRebuild(after, p, r) == NeedsRebuild(db, p, r))
      && (forall p :: Uses(after, p) == Uses(db, p))
    ensures var (after, _) := Updated(db, id, config); var key: Key := (id, db.providers[id].latest);
      var sameForm := SameForm(Functional(db.revisions[key].config), Functional(config));
      && (after.revisions[key].digest == db.revisions[key].digest <==> sameForm)
      && (sameForm ==> forall p, fp :: FingerprintNeedsRebuild(after, p, fp) == FingerprintNeedsRebuild(db, p, fp))
      && (!sameForm ==> !FingerprintNeedsRebuild(db, id, db.revisions[key].digest)
                        && FingerprintNeedsRebuild(after, id, db.revisions[key].digest))
  {
    hide FunctionallyEqual, SameForm, Functional, Uses, NeedsRebuild, ConfigHash, HasId;
    var after := InPlace(db, id, config);
    HashIsFunctional(LatestConfig(db, id), config);
    forall p, r ensures NeedsRebuild(after, p, r) == NeedsRebuild(db, p, r) {
      SameAnswer(db, id, config, p, r);
    }
    forall p ensures Uses(after, p) == Uses(db, p) {
      SameUses(db, after, p);
    }
  }

  lemma SameUses(a: Db, b: Db, p: string)
    requires a.libraries == b.libraries && forall r :: NeedsRebuild(a, p, r) == NeedsRebuild(b, p, r)
    ensures Uses(a, p) == Uses(b, p)
  {
    hide NeedsRebuild;
    SameAnswersSameUses(a, b, a.libraries, p);
  }

  lemma SameAnswer(db: Db, id: string, config: Config, p: string, r: nat)
    requires Live(db, id) && FunctionallyEqual(LatestConfig(db, id), config)
    ensures NeedsRebuild(InPlace(db, id, config), p, r) == NeedsRebuild(db, p, r)
  {
    hide FunctionallyEqual, ConfigHash;
    if p == id && (id, r) in db.revisions {
      SameFunction(LatestConfig(db, id), config, db.revisions[(id, r)].config);
      SameFunction(config, config, config);
    }
  }

  /**
   An edit that changes the hash in place: a snapshot brings a provider whose `timeout_seconds` is
   30.0, and an ordinary edit writes 30. The two are equal, so the edit is made at the same revision;
   but its hash is another one, and a knowledge library built before it must be rebuilt.
   */
  method TypedEdit() returns (s: Store, before: Digest)
    ensures fresh(s) && s.providers == map["p" := Provider(1, false)] && s.revisions.Keys == {("p", 1)}
    ensures before == ConfigHash(TimeoutOf(Float(30.0))) && s.revisions[("p", 1)] == Row(TimeoutOf(Int(30)))
    ensures s.revisions[("p", 1)].digest != before && FingerprintNeedsRebuild(s.Value(), "p", before)
  {
    hide FunctionallyEqual, ConfigHash, Used, Whole, Says, Restorable, UpdateRefused, Updated;
    s := new Store;
    var snapshot := Snapshot([("p", 1)], [("p", 1, TimeoutOf(Float(30.0)))]);
    TypedSnapshot(snapshot);
    var failure := s.Restore(snapshot);
    SaysOne(s.Value(), snapshot);
    before := s.revisions[("p", 1)].digest;
    TypedConfigs();
    TypedUpdate(s.Value());
    var r := s.UpdateProvider("p", TimeoutOf(Int(30)), false);
  }

  lemma TypedUpdate(db: Db)
    requires db.providers == map["p" := Provider(1, false)]
    requires db.revisions == map[("p", 1) := Row(TimeoutOf(Float(30.0)))]
    ensures UpdateRefused(db, "p", TimeoutOf(Int(30)), false).None?
    ensures Updated(db, "p", TimeoutOf(Int(30))) == (InPlace(db, "p", TimeoutOf(Int(30))), Ok(("p", 1)))
  {
    hide FunctionallyEqual, ConfigHash, Used;
    TypedConfigs();
  }

  function TimeoutOf(v: Value): Config {
    map["id" := Text("p"), "timeout_seconds" := v]
  }

  lemma TypedSnapshot(s: Snapshot)
    requires s == Snapshot([("p", 1)], [("p", 1, TimeoutOf(Float(30.0)))])
    ensures Restorable(s)
  {
    assert s.providers[0].0 == "p" && s.revisions[0].0 == "p";
  }

  lemma SaysOne(db: Db, s: Snapshot)
    requires s == Snapshot([("p", 1)], [("p", 1, TimeoutOf(Float(30.0)))]) && Says(db, s)
    ensures db.providers == map["p" := Provider(1, false)]
    ensures db.revisions == map[("p", 1) := Row(TimeoutOf(Float(30.0)))]
    ensures Whole(db)
  {
    hide Row, Whole, ConfigHash;
    TypedSnapshot(s);
    RestoringIsWhole(db, s);
    assert s.providers[0].0 == "p" && s.revisions[0].0 == "p";
  }

  /** 30.0 and 30 are equal, and written differently. */
  lemma TypedConfigs()
    ensures FunctionallyEqual(TimeoutOf(Float(30.0)), TimeoutOf(Int(30)))
    ensures ConfigHash(TimeoutOf(Float(30.0))) != ConfigHash(TimeoutOf(Int(30)))
  {
    PayloadIs(TimeoutOf(Float(30.0)));
    PayloadIs(TimeoutOf(Int(30)));
    AllFunctional(Float(30.0));
    AllFunctional(Int(30));
    TimeoutsCompare();
    hide Equal, Functional, FunctionalPayload, ConfigHash, TimeoutOf;
  }

  lemma TimeoutsCompare()
    ensures Equal(Dict(TimeoutOf(Float(30.0))), Dict(TimeoutOf(Int(30))))
    ensures TimeoutOf(Float(30.0)) != TimeoutOf(Int(30))
  {
    var a, b := TimeoutOf(Float(30.0)), TimeoutOf(Int(30));
    assert Equal(Text("p"), Text("p")) && Equal(Float(30.0), Int(30));
    assert a["timeout_seconds"] != b["timeout_seconds"];
  }

  lemma AllFunctional(v: Value)
    ensures Functional(TimeoutOf(v)) == Dict(TimeoutOf(v))
  {
    assert TimeoutOf(v) - OPERATIONAL == TimeoutOf(v);
  }

  lemma {:induction false} SameAnswersSameUses(a: Db, b: Db, rows: seq<Library>, p: string)
    requires forall r :: NeedsRebuild(a, p, r) == NeedsRebuild(b, p, r)
    ensures EmbeddingUses(a, rows, p) == EmbeddingUses(b, rows, p)
  {
    hide NeedsRebuild;
    if rows != [] {
      SameAnswersSameUses(a, b, rows[..|rows| - 1], p);
    }
  }

  /** An edit of the functional payload succeeds exactly when no row stands at the next revision. */
  lemma FunctionalEditOutcome(db: Db, id: string, config: Config)
    requires Whole(db) && Live(db, id) && HasId(config) && IdOf(config) == id
    requires !FunctionallyEqual(LatestConfig(db, id), config)
    ensures var (after, r) := Updated(db, id, config); var next := db.providers[id].latest + 1;
      && (r.Ok? <==> (id, next) !in db.revisions)
      && (if r.Ok? then r.value == (id, next) && after == Versioned(db, id, config) else after == db)
      && (NothingAhead(db, id) ==> r.Ok? && NothingAhead(after, id))
  {
    hide FunctionallyEqual, Row, ConfigHash, HasId, IdOf;
  }

  lemma VersionedRows(db: Db, id: string, config: Config)
    requires Whole(db) && Live(db, id)
    ensures var next := db.providers[id].latest + 1; var after := Versioned(db, id, config);
      && after.revisions == db.revisions[(id, next) := Row(config)]
      && after.providers == db.providers[id := Provider(next, db.providers[id].deleted)]
      && (id, next - 1) in db.revisions
  {
    hide ConfigHash, HasId, IdOf;
  }

  /**
   The new revision is the latest, older ones stay as they were, and exactly the libraries bound to
   it, or to a revision that is functionally equal, need no rebuild: the last one is none of them.
   */
  lemma FunctionalEditMarks(db: Db, id: string, config: Config, r: nat)
    requires Whole(db) && Live(db, id) && !FunctionallyEqual(LatestConfig(db, id), config)
    requires (id, db.providers[id].latest + 1) !in db.revisions
    ensures var after := Versioned(db, id, config); var next := db.providers[id].latest + 1;
      && Live(after, id) && LatestConfig(after, id) == config
      && (forall k :: k in db.revisions ==> k in after.revisions && after.revisions[k] == db.revisions[k])
      && (NeedsRebuild(after, id, r) <==>
            r != next && ((id, r) !in db.revisions || !FunctionallyEqual(config, db.revisions[(id, r)].config)))
      && NeedsRebuild(after, id, next - 1)
  {
    hide FunctionallyEqual, ConfigHash, Whole, HasId, IdOf;
    VersionedRows(db, id, config);
    hide Versioned;
    SameFunction(config, config, config);
    SameFunction(config, LatestConfig(db, id), config);
  }

  /** A reset leaves revisions beyond the latest one exactly when it aims below one and does not delete it. */
  lemma ResetLeavesAhead(db: Db, id: string, latest: Option<nat>, bindAll: bool, pairs: seq<(string, nat)>, trim: bool)
    requires Whole(db) && Reset(db, id, latest, bindAll, pairs, trim).Ok?
    ensures var after := Reset(db, id, latest, bindAll, pairs, trim).value;
      NothingAhead(after, id) <==>
        trim || forall k :: k in db.revisions && k.0 == id ==> k.1 <= ResetTarget(db, id, latest)
  {
    hide BoundEach, BoundAll, BoundBeyond, ConfigHash, HasId, IdOf;
  }

  /** After a reset by one revision without deletion, no functional edit of the provider can succeed. */
  lemma ResetBlocksEdits(db: Db, id: string, pairs: seq<(string, nat)>, bindAll: bool, config: Config)
    requires Whole(db) && Live(db, id) && db.providers[id].latest >= 2
    requires Reset(db, id, Some(db.providers[id].latest - 1 as nat), bindAll, pairs, false).Ok?
    requires HasId(config) && IdOf(config) == id
    ensures var after := Reset(db, id, Some(db.providers[id].latest - 1 as nat), bindAll, pairs, false).value;
      Live(after, id)
      && (!FunctionallyEqual(LatestConfig(after, id), config) ==>
         Updated(after, id, config) == (after, Err(Constraint)))
  {
    hide BoundEach, BoundAll, BoundBeyond, FunctionallyEqual, ConfigHash, HasId, Row;
  }

  lemma CopyNames(c: Config, to: string, n: nat)
    ensures HasId(CopyOf(c, to, n)) && IdOf(CopyOf(c, to, n)) == to
  {
  }

  lemma NoneTried(db: Db, id: string)
    ensures AllTaken(db, id, 1)
  {
  }

  lemma NextTried(db: Db, id: string, n: nat)
    requires n >= 1
    ensures CopyId(id, n) !in CopyIds(id, n) && CopyIds(id, n + 1) == CopyIds(id, n) + {CopyId(id, n)}
    ensures AllTaken(db, id, n) && CopyId(id, n) in db.providers && !Purgeable(db, CopyId(id, n)) ==>
              AllTaken(db, id, n + 1)
  {
    if CopyId(id, n) in CopyIds(id, n) {
      var m :| 1 <= m < n && CopyId(id, n) == CopyId(id, m);
      CopyIdsDiffer(id, m, n);
    }
  }

  lemma OneFewer(before: set<string>, after: set<string>, tried: set<string>, candidate: string)
    requires after <= before && candidate in after && candidate !in tried
    ensures |after - (tried + {candidate})| < |before - tried|
  {
    Smaller(after - (tried + {candidate}), before - tried - {candidate});
    assert before - tried == (before - tried - {candidate}) + {candidate};
  }

  lemma Smaller(a: set<string>, b: set<string>)
    requires a <= b
    ensures |a| <= |b|
  {
    assert b == a + (b - a);
  }

  lemma NoHistory(db: Db, p: string)
    requires Whole(db) && p !in db.providers
    ensures forall k :: k in db.revisions ==> k.0 != p && "id" in db.revisions[k].config
  {
  }

  lemma PurgingKeepsWhole(db: Db, p: string)
    requires Whole(db)
    ensures Whole(Purged(db, p)) && Whole(Without(db, p))
  {
    hide ConfigHash, HasId, IdOf;
  }
}
