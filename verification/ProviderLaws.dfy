/**
 What the operations on providers do and refuse, told by the rows of the tables, and what libraries can
 rely on.
 */
module ProviderLaws {
  import opened Common
  import opened Values
  import opened Providers

  /** What an index depends on: every field but these seven. */
  lemma RebuildMeans(db: Db, p: string, r: nat)
    ensures !NeedsRebuild(db, p, r) <==>
            && p in db.providers && !db.providers[p].deleted && (p, db.providers[p].latest) in db.revisions
            && (p, r) in db.revisions
            && var new_, bound := db.revisions[(p, db.providers[p].latest)].config, db.revisions[(p, r)].config;
               forall f ::
                 f !in {"display_name", "context_length_mode", "max_context_tokens_source", "index_rebuild_settings",
                        "batch_size", "concurrency", "max_retries"} ==>
                   (f in new_ <==> f in bound) && (f in new_ ==> Equal(new_[f], bound[f]))
  {
    hide FunctionallyEqual, Equal;
    if Live(db, p) && (p, r) in db.revisions {
      FieldByField(LatestConfig(db, p), db.revisions[(p, r)].config);
    }
  }

  /** A provider that was deleted makes room exactly when no library uses it; its rows go along. */
  lemma PurgeMeans(db: Db, p: string)
    ensures var gone := p in db.providers && db.providers[p].deleted && !Used(db, p); var r := Purged(db, p);
      && r.providers == (if gone then db.providers - {p} else db.providers) && r.libraries == db.libraries
      && (forall k :: k in r.revisions <==> k in db.revisions && !(gone && k.0 == p))
      && (forall k :: k in r.revisions ==> r.revisions[k] == db.revisions[k])
  {
  }

  // ----- Updating -----

  /** Why an update is refused: the provider is not there, or in use and to be renamed or switched off. */
  lemma RefusalMeans(db: Db, id: string, config: Config, disabling: bool)
    requires "id" in config && config["id"].Text?
    ensures var r := UpdateRefused(db, id, config, disabling);
      var there := id in db.providers && !db.providers[id].deleted && (id, db.providers[id].latest) in db.revisions;
      && (r == Some(NotFound) <==> !there)
      && (r == Some(InUse) <==>
            there && Used(db, id)
            && (config["id"] != Text(id)
                || (disabling && ("enabled" !in config || !Truthy(config["enabled"])))))
      && (r == None || r == Some(NotFound) || r == Some(InUse))
  {
  }

  /** An update under the same name: in place if nothing functional changes, else as the next revision. */
  lemma UpdateMeans(db: Db, id: string, config: Config)
    requires Live(db, id) && HasId(config) && config["id"] == Text(id)
    ensures var (after, r) := Updated(db, id, config); var n := db.providers[id].latest;
      && after.libraries == db.libraries
      && (if FunctionallyEqual(db.revisions[(id, n)].config, config) then
            r == Ok((id, n)) && after.providers == db.providers
            && after.revisions == db.revisions[(id, n) := Revision(config, ConfigHash(config))]
          else if (id, n + 1) in db.revisions then r == Err(Constraint) && after == db
          else
            r == Ok((id, n + 1)) && after.providers == db.providers[id := Provider(n + 1, false)]
            && after.revisions == db.revisions[(id, n + 1) := Revision(config, ConfigHash(config))])
  {
    hide FunctionallyEqual, ConfigHash;
  }

  /**
   A rename to a name that is free, or belongs to a deleted provider that nobody uses: the whole
   history goes along, every row naming the new provider and otherwise as it was, the edit comes as the
   next revision, and the libraries follow.
   */
  lemma RenameMeans(db: Db, id: string, config: Config, to: string)
    requires Whole(db) && Live(db, id) && HasId(config) && config["id"] == Text(to) && to != id
    ensures var (after, r) := Updated(db, id, config); var n := db.providers[id].latest;
      var taken := to in db.providers && (!db.providers[to].deleted || Used(db, to));
      && (r == Err(AlreadyExists) <==> taken)
      && (!taken ==> (r == Err(Constraint) <==> (id, n + 1) in db.revisions))
      && (r.Ok? ==> r == Ok((to, n + 1)))
      && (r.Err? ==> after == Purged(db, to))
      && (r.Ok? ==>
            && after.providers == (db.providers - {id})[to := Provider(n + 1, false)]
            && |after.libraries| == |db.libraries|
            && (forall i :: 0 <= i < |db.libraries| ==>
                  after.libraries[i] == db.libraries[i].(provider := if db.libraries[i].provider == id then to
                                                                     else db.libraries[i].provider)))
  {
    hide FunctionallyEqual, ConfigHash, Whole, Carried, Rebound, Row;
    ReboundMeans(db.libraries, id, to);
  }

  lemma {:induction false} ReboundMeans(rows: seq<Library>, from: string, to: string)
    ensures |Rebound(rows, from, to)| == |rows|
    ensures forall i :: 0 <= i < |rows| ==>
              Rebound(rows, from, to)[i]
              == rows[i].(provider := if rows[i].provider == from then to else rows[i].provider)
  {
    if rows != [] {
      ReboundMeans(rows[..|rows| - 1], from, to);
    }
  }

  lemma CarriedMeans(revisions: map<Key, Revision>, from: string, to: string, k: Key)
    requires from != to && forall j :: j in revisions ==> j.0 != to
    ensures var r := Carried(revisions, from, to);
      && (k in r <==> if k.0 == to then (from, k.1) in revisions else k.0 != from && k in revisions)
      && (k in r && k.0 == to ==> r[k].config == revisions[(from, k.1)].config["id" := Text(to)])
      && (k in r && k.0 == to ==> r[k].digest == ConfigHash(r[k].config))
      && (k in r && k.0 != to ==> r[k] == revisions[k])
  {
    hide ConfigHash;
  }

  lemma RenamedHistory(db: Db, id: string, config: Config, to: string, k: Key)
    requires Whole(db) && Live(db, id) && HasId(config) && config["id"] == Text(to) && to != id
    requires Updated(db, id, config).1.Ok?
    ensures var after := Updated(db, id, config).0.revisions; var n := db.providers[id].latest + 1;
      && (k in after <==>
            if k.0 == to then k.1 == n || (id, k.1) in db.revisions else k.0 != id && k in db.revisions)
      && (k in after && k.0 != to ==> after[k] == db.revisions[k])
      && (k in after && k.0 == to ==> after[k].digest == ConfigHash(after[k].config))
      && (k == (to, n) ==> after[k].config == config)
      && (k in after && k.0 == to && k.1 != n ==>
            after[k].config == db.revisions[(id, k.1)].config["id" := Text(to)])
  {
    hide FunctionallyEqual, ConfigHash, Rebound, Whole, Carried, Updated, Purged, Used;
    AwayIs(db, id, config);
    PurgingKeepsWhole(db, to);
    var clean := Purged(db, to);
    NoHistory(clean, to);
    PurgeMeans(db, to);
    CarriedMeans(clean.revisions, id, to, k);
    NoneBefore(db, clean, to);
  }

  /** Rows of the name `to` exist only as long as its provider does. */
  lemma NoneBefore(db: Db, clean: Db, to: string)
    requires Whole(db) && clean == Purged(db, to) && to !in clean.providers
    ensures forall k :: k in clean.revisions <==> k in db.revisions && k.0 != to
    ensures forall k :: k in clean.revisions ==> clean.revisions[k] == db.revisions[k]
  {
    hide ConfigHash, Used, HasId, IdOf;
  }

  /** A provider that a library uses stays, under its name, and switched on if it was. */
  lemma UsedProvidersStay(db: Db, id: string, config: Config, disabling: bool)
    requires Whole(db) && Live(db, id) && HasId(config) && Used(db, id)
    requires Enabled(LatestConfig(db, id)) && !Enabled(config) ==> disabling
    ensures var after := if UpdateRefused(db, id, config, disabling).Some? then db else Updated(db, id, config).0;
      && Live(after, id) && (Enabled(LatestConfig(db, id)) ==> Enabled(LatestConfig(after, id)))
      && after.libraries == db.libraries
  {
    hide FunctionallyEqual, ConfigHash, Whole;
  }

  // ----- Copying -----

  /** The decimal digits of a number. */
  lemma DecimalMeans(n: nat)
    ensures var d := Decimal(n);
      && |d| > 0 && d[|d| - 1] as int == '0' as int + n % 10
      && (n < 10 ==> |d| == 1) && (n >= 10 ==> d[..|d| - 1] == Decimal(n / 10))
  {
    assert forall k :: 0 <= k < 10 ==>
             ['0', '1', '2', '3', '4', '5', '6', '7', '8', '9'][k] as int == '0' as int + k;
  }

  /** The names tried for a copy; the copy is the same but for its name, its display name and the switch. */
  lemma CopyMeans(c: Config, id: string, to: string, n: nat)
    ensures CopyId(id, 1) == id + "_copy" && (n >= 2 ==> CopyId(id, n) == id + "_copy" + Decimal(n))
    ensures var copy := CopyOf(c, to, n);
      && copy.Keys == c.Keys + {"id", "display_name", "enabled"}
      && copy["id"] == Text(to) && copy["enabled"] == Bool(false) && copy["display_name"].Text?
      && (forall f :: f in c && f !in {"id", "display_name", "enabled"} ==> copy[f] == c[f])
  {
    hide Decimal;
  }

  /** The display name of a copy: the one it had, as Python prints it, and a mark with the number of the copy. */
  lemma CopyNameMeans(c: Config, to: string, n: nat)
    ensures var mark := "(\U{526F}\U{672C}" + (if n == 1 then "" else Decimal(n)) + ")";
      CopyOf(c, to, n)["display_name"] ==
      Text((if "display_name" !in c then ""
            else match c["display_name"]
                 case Text(s) => s
                 case Int(i) => if i >= 0 then Decimal(i) else "-" + Decimal(-i)
                 case other => Printed(other)) + mark)
  {
    hide Decimal;
  }

  // ----- Debug reset -----

  /** A reset in which no binding is asked for singly. */
  lemma ResetMeans(db: Db, id: string, latest: Option<nat>, bindAll: bool, trim: bool)
    ensures var r := Reset(db, id, latest, bindAll, [], trim);
      if id !in db.providers || db.providers[id].deleted then r == Err(NotFound)
      else
        var target := if latest.Some? && latest.value > 0 then latest.value else db.providers[id].latest;
        if (id, target) !in db.revisions then r == Err(NoSuchRevision)
        else
          var beyond := !bindAll
            && (exists i :: 0 <= i < |db.libraries| && !db.libraries[i].deleted
                            && db.libraries[i].provider == id && db.libraries[i].revision > target);
          && (r == Err(StillBound) <==> trim && beyond) && (r.Err? ==> r == Err(StillBound))
          && (r.Ok? ==>
                && r.value.providers == db.providers[id := Provider(target, false)]
                && (forall k :: k in r.value.revisions <==>
                      k in db.revisions && !(trim && k.0 == id && k.1 > target))
                && (forall k :: k in r.value.revisions ==> r.value.revisions[k] == db.revisions[k])
                && |r.value.libraries| == |db.libraries|
                && (forall i :: 0 <= i < |db.libraries| ==>
                      var l := db.libraries[i];
                      r.value.libraries[i]
                      == if bindAll && l.provider == id && !l.deleted then l.(revision := target) else l))
  {
    hide Trimmed, Listed, Bound;
    TrimmedMeans(db.revisions, id, ResetTargetOr(db, id, latest));
  }

  function ResetTargetOr(db: Db, id: string, latest: Option<nat>): nat {
    if id in db.providers then ResetTarget(db, id, latest) else 0
  }

  lemma TrimmedMeans(revisions: map<Key, Revision>, id: string, target: nat)
    ensures var r := Trimmed(revisions, id, target);
      && (forall k :: k in r <==> k in revisions && !(k.0 == id && k.1 > target))
      && (forall k :: k in r ==> r[k] == revisions[k])
  {
  }

  /** The bindings asked for singly are made in order, and the first that cannot be made fails the reset. */
  lemma BindMeans(db: Db, id: string, rows: seq<Library>, library: string, revision: nat, more: seq<(string, nat)>)
    ensures var r := BoundEach(db, id, rows, [(library, revision)] + more);
      var listed := exists i :: 0 <= i < |rows| && rows[i].id == library && !rows[i].deleted;
      var bound := exists i :: 0 <= i < |rows| && rows[i].id == library && !rows[i].deleted && rows[i].provider == id;
      if (id, revision) !in db.revisions then r == Err(NoSuchRevision)
      else if !listed then r == Err(NoSuchLibrary)
      else if !bound then r == Err(NotBound)
      else r == BoundEach(db, id, seq(|rows|, i requires 0 <= i < |rows| =>
                                  if rows[i].id == library then rows[i].(revision := revision) else rows[i]), more)
    ensures BoundEach(db, id, rows, []) == Ok(rows)
  {
    assert ([(library, revision)] + more)[1..] == more;
    assert BoundOne(rows, library, revision) ==
      seq(|rows|, i requires 0 <= i < |rows| =>
        if rows[i].id == library then rows[i].(revision := revision) else rows[i]);
  }

  // ----- Restoring -----

  /** The snapshots that are accepted. */
  lemma RestorableMeans(s: Snapshot)
    ensures Restorable(s) <==>
            && (forall i, j :: 0 <= i < j < |s.providers| ==> s.providers[i].0 != s.providers[j].0)
            && (forall j, i :: 0 <= j < |s.revisions| && 0 <= i < |s.providers|
                                 && s.providers[i].0 == s.revisions[j].0 ==>
                  s.revisions[j].1 > 0 && "id" in s.revisions[j].2
                  && s.revisions[j].2["id"] == Text(s.revisions[j].0))
            && (forall p :: p in s.providers ==>
                  exists j :: 0 <= j < |s.revisions| && s.revisions[j].0 == p.0 && s.revisions[j].1 == p.1)
            && (forall i, j, m :: 0 <= i < j < |s.revisions| && 0 <= m < |s.providers|
                                    && s.providers[m].0 == s.revisions[i].0 ==>
                  (s.revisions[i].0, s.revisions[i].1) != (s.revisions[j].0, s.revisions[j].1))
  {
    hide RowOk, Twice, LatestListed;
    RowsMean(s);
    KeysMean(s);
    LatestMean(s);
  }

  lemma LatestMean(s: Snapshot)
    ensures (forall i :: 0 <= i < |s.providers| ==> LatestListed(s, s.providers[i])) <==>
            forall p :: p in s.providers ==>
              exists j :: 0 <= j < |s.revisions| && s.revisions[j].0 == p.0 && s.revisions[j].1 == p.1
  {
    assert forall p :: LatestListed(s, p) <==>
             exists j :: 0 <= j < |s.revisions| && s.revisions[j].0 == p.0 && s.revisions[j].1 == p.1;
    if i :| 0 <= i < |s.providers| && !LatestListed(s, s.providers[i]) {
      assert s.providers[i] in s.providers;
    }
  }

  lemma RowsMean(s: Snapshot)
    ensures (forall j :: 0 <= j < |s.revisions| ==> RowOk(s, j)) <==>
            forall j, i :: 0 <= j < |s.revisions| && 0 <= i < |s.providers| && s.providers[i].0 == s.revisions[j].0 ==>
              s.revisions[j].1 > 0 && "id" in s.revisions[j].2 && s.revisions[j].2["id"] == Text(s.revisions[j].0)
  {
    forall j | 0 <= j < |s.revisions|
      ensures RowOk(s, j) <==>
              forall i :: 0 <= i < |s.providers| && s.providers[i].0 == s.revisions[j].0 ==>
                s.revisions[j].1 > 0 && "id" in s.revisions[j].2 && s.revisions[j].2["id"] == Text(s.revisions[j].0)
    {
    }
  }

  lemma KeysMean(s: Snapshot)
    ensures (forall i, j :: 0 <= i < j < |s.revisions| ==> !Twice(s, i, j)) <==>
            forall i, j, m :: 0 <= i < j < |s.revisions| && 0 <= m < |s.providers|
                                && s.providers[m].0 == s.revisions[i].0 ==>
              (s.revisions[i].0, s.revisions[i].1) != (s.revisions[j].0, s.revisions[j].1)
  {
    forall i, j | 0 <= i < j < |s.revisions|
      ensures Twice(s, i, j) <==>
              (exists m :: 0 <= m < |s.providers| && s.providers[m].0 == s.revisions[i].0)
              && (s.revisions[i].0, s.revisions[i].1) == (s.revisions[j].0, s.revisions[j].1)
    {
    }
  }

  /** What a restore leaves: exactly the providers of the snapshot, and exactly the revisions that belong to them. */
  lemma SaysMeans(db: Db, s: Snapshot, p: string, r: nat)
    requires Restorable(s) && Says(db, s)
    ensures p in db.providers <==> exists i :: 0 <= i < |s.providers| && s.providers[i].0 == p
    ensures forall i :: 0 <= i < |s.providers| && s.providers[i].0 == p ==>
              p in db.providers && db.providers[p] == Provider(s.providers[i].1, false)
    ensures (p, r) in db.revisions <==>
            p in db.providers && exists j :: 0 <= j < |s.revisions| && s.revisions[j].0 == p && s.revisions[j].1 == r
    ensures forall j :: 0 <= j < |s.revisions| && s.revisions[j].0 == p && s.revisions[j].1 == r
                        && p in db.providers ==>
              (p, r) in db.revisions
              && db.revisions[(p, r)] == Revision(s.revisions[j].2, ConfigHash(s.revisions[j].2))
  {
    hide ConfigHash;
    if (p, r) in db.revisions {
      assert Said((p, r), db.revisions[(p, r)], s, |s.revisions|);
    }
  }
}
