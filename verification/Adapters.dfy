/**
 Adapter connections: one row per database and adapter with a time to live and a forced-offline
 state, and for the first database type a mirror in the older table. A transaction is one
 atomic step; times are the caller's clock, read once per call. Identifiers are taken as valid.
 */
module Adapters {
  import opened Common

  const TTL := 180
  const LIVING_MEMORY := "livingmemory_v8"

  datatype Key = Key(databaseType: string, database: string, adapter: string)

  datatype State = Active | ForcedOffline

  datatype Row = Row(instance: string, adapterType: string, connectedAt: int, lastSeen: int,
                     state: State, disconnectedAt: Option<int>, reason: Option<string>)

  /** A row of the older table: it names a database next to the library it belongs to. */
  datatype LegacyRow = LegacyRow(databaseType: string, database: string, row: Row)

  type LegacyKey = (string, string)     // library and adapter

  datatype Refusal = UnknownDatabase | Offline(row: Row) | Occupied | NoSuchAdapter | Changed

  datatype Tables = Tables(rows: map<Key, Row>, legacy: map<LegacyKey, LegacyRow>)

  // ----- Registration and forced disconnection -----

  function Refused(t: Tables, k: Key, instance: string, ttl: int, manual: bool, now: int): Option<Refusal> {
    if k !in t.rows then None
    else if t.rows[k].state.ForcedOffline? && !manual then Some(Offline(t.rows[k]))
    else if t.rows[k].state.Active? && t.rows[k].instance != instance && t.rows[k].lastSeen >= now - ttl
      then Some(Occupied)
    else None
  }

  /** The same instance renews a row that is active. */
  predicate Renews(t: Tables, k: Key, instance: string) {
    k in t.rows && t.rows[k].state.Active? && t.rows[k].instance == instance
  }

  function Connected(t: Tables, k: Key, instance: string, adapterType: string, now: int): Tables {
    var since := if Renews(t, k, instance) then t.rows[k].connectedAt else now;
    var row := Row(instance, adapterType, since, now, Active, None, None);
    t.(rows := t.rows[k := row],
       legacy := if k.databaseType == LIVING_MEMORY
                 then t.legacy[(k.database, k.adapter) := LegacyRow(k.databaseType, k.database, row)] else t.legacy)
  }

  function Disconnected(t: Tables, k: Key, reason: string, now: int): Tables
    requires k in t.rows
  {
    var old_ := (k.database, k.adapter);
    t.(rows := t.rows[k := Cut(t.rows[k], reason, now)],
       legacy := if k.databaseType == LIVING_MEMORY && old_ in t.legacy
                 then t.legacy[old_ := t.legacy[old_].(row := Cut(t.legacy[old_].row, reason, now))] else t.legacy)
  }

  function Cut(row: Row, reason: string, now: int): Row {
    row.(state := ForcedOffline, disconnectedAt := Some(now),
         reason := Some(if reason == "" then "forced_by_admin" else reason))
  }

  function Target(l: LegacyKey, row: LegacyRow): Key {
    Key(row.databaseType, row.database, l.1)
  }

  /** `after` is `rows` with every older row copied over it, in some order. */
  ghost predicate IsCopy(rows: map<Key, Row>, legacy: map<LegacyKey, LegacyRow>, after: map<Key, Row>) {
    && (forall k :: k in after <==> k in rows || exists l :: l in legacy && Target(l, legacy[l]) == k)
    && (forall k :: k in after ==>
          || (exists l :: l in legacy && Target(l, legacy[l]) == k && after[k] == legacy[l].row)
          || (k in rows && after[k] == rows[k] && forall l :: l in legacy ==> Target(l, legacy[l]) != k))
  }

  /** The older table says exactly what the newer one says of the first database type. */
  ghost predicate Mirror(t: Tables) {
    forall d: string, a: string ::
      var k := Key(LIVING_MEMORY, d, a);
      && ((d, a) in t.legacy <==> k in t.rows)
      && (k in t.rows ==> t.legacy[(d, a)] == LegacyRow(LIVING_MEMORY, d, t.rows[k]))
  }

  // ----- Renaming a library -----

  predicate Used(t: Tables, d: string, now: int) {
    exists k :: k in t.rows && k.databaseType == LIVING_MEMORY && k.database == d
                && t.rows[k].state.Active? && t.rows[k].lastSeen >= now - TTL
  }

  /** What stands under the new name of a library. */
  datatype Occupant = Nobody | SoftDeleted | InUse

  /** control.py:2473-2481: the connection rows of a soft-deleted library. */
  function Cleared(t: Tables, d: string): Tables {
    Tables(map k | k in t.rows && !(k.databaseType == LIVING_MEMORY && k.database == d) :: t.rows[k],
           map l | l in t.legacy && l.0 != d :: t.legacy[l])
  }

  /** The tables a rename works on: a soft-deleted library makes room. */
  function Room(t: Tables, to: string, occupant: Occupant): Tables {
    if occupant.SoftDeleted? then Cleared(t, to) else t
  }

  function Moved(k: Key, from: string, to: string): Key {
    if k.databaseType == LIVING_MEMORY && k.database == from then k.(database := to) else k
  }

  /** A key of the renamed library that is taken already makes the statement fail. */
  predicate Clash(t: Tables, from: string, to: string) {
    || (exists k :: k in t.rows && Moved(k, from, to) != k && Moved(k, from, to) in t.rows)
    || (exists l :: l in t.legacy && l.0 == from && (to, l.1) in t.legacy)
  }

  /** control.py:2579-2587: of an older row only the library is changed, not the database it names. */
  function Renamed(t: Tables, from: string, to: string): Tables
    requires from != to && !Clash(t, from, to)
  {
    Tables((map k | k in t.rows && Moved(k, from, to) == k :: t.rows[k])
           + (map k | k in Arriving(t.rows, from, to) :: t.rows[k.(database := from)]),
           (map l | l in t.legacy && l.0 != from :: t.legacy[l])
           + (map l | l in ArrivingLegacy(t.legacy, from, to) :: t.legacy[(from, l.1)]))
  }

  function Arriving(rows: map<Key, Row>, from: string, to: string): (r: set<Key>)
    ensures forall k :: k in r <==> k.databaseType == LIVING_MEMORY && k.database == to && k.(database := from) in rows
  {
    set k | k in rows && k.databaseType == LIVING_MEMORY && k.database == from :: k.(database := to)
  }

  function ArrivingLegacy(legacy: map<LegacyKey, LegacyRow>, from: string, to: string): (r: set<LegacyKey>)
    ensures forall l :: l in r <==> l.0 == to && (from, l.1) in legacy
  {
    set l | l in legacy && l.0 == from :: (to, l.1)
  }

  class Store {
    var rows: map<Key, Row>
    var legacy: map<LegacyKey, LegacyRow>

    ghost function Both(): Tables
      reads this
    {
      Tables(rows, legacy)
    }

    constructor ()
      ensures Both() == Tables(map[], map[]) && Mirror(Both())
    {
      rows, legacy := map[], map[];
    }

    /**
     `register_adapter_connection`: refused, nothing changes; accepted, the row is the caller's,
     seen now, and connected since it was last not its own active row.
     */
    method Register(k: Key, known: bool, instance: string, adapterType: string, ttl: int, manual: bool, now: int)
      returns (r: Result<Row, Refusal>)
      modifies this
      ensures r == Err(UnknownDatabase) <==> !known
      ensures known ==> r.Err? == Refused(old(Both()), k, instance, ttl, manual, now).Some?
      ensures known && k !in old(rows) ==> r.Ok?
      ensures known && k in old(rows) ==> var row := old(rows)[k];
                && (r == Err(Offline(row)) <==> row.state == ForcedOffline && !manual)
                && (r == Err(Occupied) <==>
                      row.state == Active && row.instance != instance && row.lastSeen >= now - ttl)
                && (r.Ok? <==> (row.state == ForcedOffline && manual)
                               || (row.state == Active && (row.instance == instance || row.lastSeen < now - ttl)))
      ensures r.Ok? ==> Both() == Connected(old(Both()), k, instance, adapterType, now) && r.value == rows[k]
      ensures r.Ok? ==>
                var own := k in old(rows) && old(rows)[k].state == Active && old(rows)[k].instance == instance;
                rows == old(rows)[k := Row(instance, adapterType, if own then old(rows)[k].connectedAt else now, now,
                                           Active, None, None)]
      ensures r.Ok? ==> legacy == if k.databaseType == "livingmemory_v8"
                                  then old(legacy)[(k.database, k.adapter) :=
                                                     LegacyRow(k.databaseType, k.database, rows[k])]
                                  else old(legacy)
      ensures r.Err? ==> Both() == old(Both())
    {
      if !known {
        return Err(UnknownDatabase);
      }
      var cutoff := now - ttl;
      var sameInstance := false;
      if k in rows {
        var row := rows[k];
        if row.state.ForcedOffline? && !manual {
          return Err(Offline(row));
        }
        if row.state.Active? && row.instance != instance && row.lastSeen >= cutoff {
          return Err(Occupied);
        }
        sameInstance := row.state.Active? && row.instance == instance;
      }
      var connectedAt := if sameInstance then rows[k].connectedAt else now;
      var row := Row(instance, adapterType, connectedAt, now, Active, None, None);
      rows := rows[k := row];
      if k.databaseType == LIVING_MEMORY {
        legacy := legacy[(k.database, k.adapter) := LegacyRow(k.databaseType, k.database, row)];
      }
      return Ok(row);
    }

    /** `force_disconnect_adapter` */
    method ForceDisconnect(k: Key, expected: string, reason: string, now: int) returns (r: Result<Row, Refusal>)
      modifies this
      ensures r.Ok? <==> k in old(rows) && old(rows)[k].instance == expected
      ensures r.Err? ==> r.error == (if k in old(rows) then Changed else NoSuchAdapter) && Both() == old(Both())
      ensures r.Ok? ==> Both() == Disconnected(old(Both()), k, reason, now) && r.value == rows[k]
      ensures r.Ok? ==>
                var why := if reason == "" then "forced_by_admin" else reason;
                && rows == old(rows)[k := old(rows)[k].(state := ForcedOffline, disconnectedAt := Some(now),
                                                         reason := Some(why))]
                && (legacy == if k.databaseType == "livingmemory_v8" && (k.database, k.adapter) in old(legacy)
                              then old(legacy)[(k.database, k.adapter) :=
                                     old(legacy)[(k.database, k.adapter)].(row :=
                                       old(legacy)[(k.database, k.adapter)].row.(
                                         state := ForcedOffline, disconnectedAt := Some(now), reason := Some(why)))]
                              else old(legacy))
    {
      if k !in rows {
        return Err(NoSuchAdapter);
      }
      if rows[k].instance != expected {
        return Err(Changed);
      }
      rows := rows[k := Cut(rows[k], reason, now)];
      var old_ := (k.database, k.adapter);
      if k.databaseType == LIVING_MEMORY && old_ in legacy {
        legacy := legacy[old_ := legacy[old_].(row := Cut(legacy[old_].row, reason, now))];
      }
      return Ok(rows[k]);
    }

    /** The copy at startup (control.py:406-421); the order of the older rows is not fixed. */
    method CopyLegacy()
      modifies this`rows
      ensures IsCopy(old(rows), legacy, rows)
    {
      var rest := legacy.Keys;
      while rest != {}
        invariant rest <= legacy.Keys
        invariant IsCopy(old(rows), Taken(legacy, rest), rows)
      {
        var l :| l in rest;
        CopyOne(old(rows), legacy, rest, l, rows);
        rest := rest - {l};
        rows := rows[Target(l, legacy[l]) := legacy[l].row];
      }
      assert Taken(legacy, {}) == legacy;
    }

    /** A heartbeat, a forced disconnect or a start, at time `now`. */
    method AnyEvent(now: int) returns (ghost e: Event)
      modifies this
      ensures e.now == now && Both() == Step(old(Both()), e)
      ensures e.Restart? ==> IsCopy(old(rows), old(legacy), e.after)
    {
      hide Refused, Connected, Disconnected, IsCopy;
      var k: Key, instance: string, text: string, manual: bool := *, *, *, *;
      var choice: int := *;
      if choice == 0 {
        var r := Register(k, true, instance, text, TTL, manual, now);
        e := Heartbeat(k, instance, text, manual, now);
      } else if choice == 1 {
        var r := ForceDisconnect(k, instance, text, now);
        e := Force(k, instance, text, now);
      } else {
        CopyLegacy();
        e := Restart(rows, now);
      }
    }

    /** Any use of the store, by a clock that does not run backwards, is a legal run of events. */
    method AnyUse(steps: nat, start: int) returns (ghost es: seq<Event>)
      modifies this
      ensures |es| == steps && Legal(old(Both()), es, start) && Both() == At(old(Both()), es, steps)
    {
      hide Step, IsCopy;
      es := [];
      var clock := start;
      for k := 0 to steps
        invariant |es| == k && clock >= start && Legal(old(Both()), es, start) && Both() == At(old(Both()), es, k)
        invariant forall i :: 0 <= i < k ==> es[i].now <= clock
      {
        var now: int := *;
        clock := if now > clock then now else clock;
        ghost var before := Both();
        ghost var e := AnyEvent(clock);
        LegalNext(old(Both()), es, start, e);
        es := es + [e];
      }
    }

    /** The part of `update_library` that renames a library; what fails is not committed. */
    method Rename(from: string, to: string, occupant: Occupant, now: int) returns (ok: bool)
      requires from != to
      modifies this
      ensures ok <==> !Used(old(Both()), from, now)
                      && (occupant.SoftDeleted? || (occupant.Nobody? && !Clash(old(Both()), from, to)))
      ensures ok ==> !Clash(Room(old(Both()), to, occupant), from, to)
                     && Both() == Renamed(Room(old(Both()), to, occupant), from, to)
      ensures ok && occupant.Nobody? ==> !Clash(old(Both()), from, to) && Both() == Renamed(old(Both()), from, to)
      ensures ok && occupant.SoftDeleted? ==>
                !Clash(Cleared(old(Both()), to), from, to) && Both() == Renamed(Cleared(old(Both()), to), from, to)
      ensures ok <==> && (occupant.SoftDeleted? || (occupant.Nobody? && !Clash(old(Both()), from, to)))
                      && forall k :: k in old(rows) && k.databaseType == "livingmemory_v8" && k.database == from ==>
                           old(rows)[k].state != Active || old(rows)[k].lastSeen < now - 180
      ensures !ok ==> Both() == old(Both())
    {
      if exists k :: k in rows && k.databaseType == LIVING_MEMORY && k.database == from
                     && rows[k].state.Active? && rows[k].lastSeen >= now - TTL {
        return false;
      }
      if occupant.InUse? {
        return false;
      }
      ClearedIsFree(Tables(rows, legacy), from, to);
      var t := Room(Tables(rows, legacy), to, occupant);
      if Clash(t, from, to) {
        return false;
      }
      var moved := Renamed(t, from, to);
      rows, legacy := moved.rows, moved.legacy;
      return true;
    }
  }

  function Taken(legacy: map<LegacyKey, LegacyRow>, rest: set<LegacyKey>): map<LegacyKey, LegacyRow> {
    map l | l in legacy && l !in rest :: legacy[l]
  }

  lemma CopyOne(rows: map<Key, Row>, legacy: map<LegacyKey, LegacyRow>, rest: set<LegacyKey>, l: LegacyKey,
                so: map<Key, Row>)
    requires l in rest && rest <= legacy.Keys && IsCopy(rows, Taken(legacy, rest), so)
    ensures IsCopy(rows, Taken(legacy, rest - {l}), so[Target(l, legacy[l]) := legacy[l].row])
  {
    var a, b := Taken(legacy, rest), Taken(legacy, rest - {l});
    var k := Target(l, legacy[l]);
    assert b == a[l := legacy[l]];
    assert l in b && Target(l, b[l]) == k;
    var after := so[k := legacy[l].row];
    forall j | j in rows || exists m :: m in b && Target(m, b[m]) == j ensures j in after {
      if m :| m in b && Target(m, b[m]) == j {
        assert m == l || (m in a && Target(m, a[m]) == j);
      }
    }
    forall j | j in after && j != k
      ensures j in rows || exists m :: m in b && Target(m, b[m]) == j
      ensures || (exists m :: m in b && Target(m, b[m]) == j && after[j] == b[m].row)
              || (j in rows && after[j] == rows[j] && forall m :: m in b ==> Target(m, b[m]) != j)
    {
      if m :| m in a && Target(m, a[m]) == j && so[j] == a[m].row {
        assert m in b && Target(m, b[m]) == j;
      }
    }
  }

  // ----- The mirror -----

  lemma ConnectingKeepsMirror(t: Tables, k: Key, instance: string, adapterType: string, now: int)
    requires Mirror(t)
    ensures Mirror(Connected(t, k, instance, adapterType, now))
  {
  }

  lemma DisconnectingKeepsMirror(t: Tables, k: Key, reason: string, now: int)
    requires Mirror(t) && k in t.rows
    ensures Mirror(Disconnected(t, k, reason, now))
  {
  }

  /** Over an exact mirror the copy at startup changes nothing. */
  lemma CopyOfMirror(t: Tables, after: map<Key, Row>)
    requires Mirror(t) && IsCopy(t.rows, t.legacy, after)
    ensures after == t.rows
  {
    forall l | l in t.legacy
      ensures Target(l, t.legacy[l]) in t.rows && t.rows[Target(l, t.legacy[l])] == t.legacy[l].row
    {
      assert (l.0, l.1) == l;
    }
  }

  predicate HasRows(t: Tables, d: string) {
    exists k :: k in t.rows && k.databaseType == LIVING_MEMORY && k.database == d
  }

  /** The rename fails exactly over an adapter that has a row under both names in one of the tables. */
  lemma ClashesWhen(t: Tables, from: string, to: string)
    requires from != to
    ensures Clash(t, from, to) <==>
            exists a: string ::
              || (Key("livingmemory_v8", from, a) in t.rows && Key("livingmemory_v8", to, a) in t.rows)
              || ((from, a) in t.legacy && (to, a) in t.legacy)
  {
    if Clash(t, from, to) {
      if k :| k in t.rows && Moved(k, from, to) != k && Moved(k, from, to) in t.rows {
        assert k == Key("livingmemory_v8", from, k.adapter);
      } else {
        var l :| l in t.legacy && l.0 == from && (to, l.1) in t.legacy;
        assert l == (from, l.1);
      }
    }
    if a: string :| Key("livingmemory_v8", from, a) in t.rows && Key("livingmemory_v8", to, a) in t.rows {
      assert Moved(Key("livingmemory_v8", from, a), from, to) == Key("livingmemory_v8", to, a);
    }
  }

  lemma ClearedIsFree(t: Tables, from: string, to: string)
    requires from != to
    ensures !Clash(Cleared(t, to), from, to)
  {
  }

  /** Making room keeps the mirror, and the rows of every other library. */
  lemma RoomKeepsMirror(t: Tables, to: string, occupant: Occupant, from: string)
    requires Mirror(t) && from != to
    ensures Mirror(Room(t, to, occupant)) && (HasRows(Room(t, to, occupant), from) <==> HasRows(t, from))
  {
    var r := Room(t, to, occupant);
    if HasRows(t, from) {
      var k :| k in t.rows && k.databaseType == LIVING_MEMORY && k.database == from;
      assert k in r.rows;
    }
  }

  /** Where the rows of a renamed library go; all others stay. */
  lemma RenamedRow(t: Tables, from: string, to: string, k: Key)
    requires from != to && !Clash(t, from, to)
    ensures var r := Renamed(t, from, to).rows; var mine := k.databaseType == "livingmemory_v8";
      && (k in r <==>
            || (k in t.rows && !(mine && k.database == from))
            || (mine && k.database == to && k.(database := from) in t.rows))
      && (k in r ==>
            r[k] == if mine && k.database == to && k.(database := from) in t.rows then t.rows[k.(database := from)]
                    else t.rows[k])
  {
  }

  /** The rows of a soft-deleted library are gone from both tables; all others stay. */
  lemma ClearedAt(t: Tables, d: string, k: Key, l: LegacyKey)
    ensures var r := Cleared(t, d);
      && (k in r.rows <==> k in t.rows && !(k.databaseType == "livingmemory_v8" && k.database == d))
      && (k in r.rows ==> r.rows[k] == t.rows[k])
      && (l in r.legacy <==> l in t.legacy && l.0 != d) && (l in r.legacy ==> r.legacy[l] == t.legacy[l])
  {
  }

  lemma RenamedLegacy(t: Tables, from: string, to: string, l: LegacyKey)
    requires from != to && !Clash(t, from, to)
    ensures var r := Renamed(t, from, to).legacy;
      && (l in r <==> (l in t.legacy && l.0 != from) || (l.0 == to && (from, l.1) in t.legacy))
      && (l in r ==> r[l] == if l.0 == to && (from, l.1) in t.legacy then t.legacy[(from, l.1)] else t.legacy[l])
  {
  }

  lemma UnusedStays(t: Tables, from: string, to: string)
    requires Mirror(t) && from != to && !Clash(t, from, to) && !HasRows(t, from)
    ensures Renamed(t, from, to) == t
  {
    var r := Renamed(t, from, to);
    forall l | l in t.legacy ensures l.0 != from {
      assert (l.0, l.1) == l && Key(LIVING_MEMORY, l.0, l.1) in t.rows;
    }
    assert r.legacy == t.legacy;
    assert r.rows == t.rows;
  }

  /**
   A rename keeps the mirror exactly when the library has no connection row: the older rows go on
   naming the old database.
   */
  lemma RenameBreaksMirror(t: Tables, from: string, to: string)
    requires Mirror(t) && from != to && !Clash(t, from, to)
    ensures Mirror(Renamed(t, from, to)) <==> !HasRows(t, from)
  {
    var r := Renamed(t, from, to);
    if HasRows(t, from) {
      var k :| k in t.rows && k.databaseType == LIVING_MEMORY && k.database == from;
      assert (from, k.adapter) in t.legacy;
      RenamedLegacy(t, from, to, (to, k.adapter));
      RenamedRow(t, from, to, Key(LIVING_MEMORY, to, k.adapter));
      hide Renamed, Clash;
      assert r.legacy[(to, k.adapter)].database == from;
    } else {
      UnusedStays(t, from, to);
    }
  }

  /** After a rename one older row still names the old library, and so goes to the key that has just been left. */
  lemma OldRow(t: Tables, from: string, to: string, adapter: string)
    requires Mirror(t) && from != to && !Clash(t, from, to) && Key(LIVING_MEMORY, from, adapter) in t.rows
    ensures var r := Renamed(t, from, to); var old_ := Key(LIVING_MEMORY, from, adapter);
      && old_ !in r.rows && Key(LIVING_MEMORY, to, adapter) in r.rows
      && (to, adapter) in r.legacy && Target((to, adapter), r.legacy[(to, adapter)]) == old_
      && (forall l :: l in r.legacy && Target(l, r.legacy[l]) == old_ ==> r.legacy[l].row == t.rows[old_])
  {
    var r, old_ := Renamed(t, from, to), Key(LIVING_MEMORY, from, adapter);
    assert (from, adapter) in t.legacy && t.legacy[(from, adapter)] == LegacyRow(LIVING_MEMORY, from, t.rows[old_]);
    RenamedRow(t, from, to, old_);
    RenamedRow(t, from, to, Key(LIVING_MEMORY, to, adapter));
    RenamedLegacy(t, from, to, (to, adapter));
    forall l | l in r.legacy && Target(l, r.legacy[l]) == old_ ensures r.legacy[l].row == t.rows[old_] {
      assert (l.0, l.1) == l && l.1 == adapter;
      RenamedLegacy(t, from, to, l);
      assert l in t.legacy ==> t.legacy[l].database == l.0;
    }
  }

  /**
   After a rename, the next start brings every connection of the library back under the old name,
   next to the ones under the new name; and then the library cannot be renamed back.
   */
  lemma OldNameReturns(t: Tables, from: string, to: string, after: map<Key, Row>, adapter: string)
    requires Mirror(t) && from != to && !Clash(t, from, to) && Key(LIVING_MEMORY, from, adapter) in t.rows
    requires var r := Renamed(t, from, to); IsCopy(r.rows, r.legacy, after)
    ensures Key(LIVING_MEMORY, from, adapter) !in Renamed(t, from, to).rows
    ensures Key(LIVING_MEMORY, from, adapter) in after
            && after[Key(LIVING_MEMORY, from, adapter)] == t.rows[Key(LIVING_MEMORY, from, adapter)]
    ensures Key(LIVING_MEMORY, to, adapter) in after
    ensures Clash(Tables(after, Renamed(t, from, to).legacy), to, from)
  {
    OldRow(t, from, to, adapter);
    var old_, new_ := Key(LIVING_MEMORY, from, adapter), Key(LIVING_MEMORY, to, adapter);
    hide Renamed, Mirror;
    assert old_ in after && new_ in after;
    assert Moved(new_, to, from) == old_;
  }

  // ----- Runs -----

  /** A start of the program carries what its copy made of the rows. */
  datatype Event =
    | Heartbeat(k: Key, instance: string, adapterType: string, manual: bool, now: int)
    | Force(k: Key, expected: string, reason: string, now: int)
    | Restart(after: map<Key, Row>, now: int)

  predicate Accepted(t: Tables, e: Event) {
    match e
    case Heartbeat(k, x, _, manual, now) => Refused(t, k, x, TTL, manual, now).None?
    case Force(k, expected, _, _) => k in t.rows && t.rows[k].instance == expected
    case Restart(_, _) => true
  }

  function Step(t: Tables, e: Event): Tables {
    if !Accepted(t, e) then t
    else
      match e
      case Heartbeat(k, x, adapterType, _, now) => Connected(t, k, x, adapterType, now)
      case Force(k, _, reason, now) => Disconnected(t, k, reason, now)
      case Restart(after, _) => t.(rows := after)
  }

  /** The tables before event `i`. */
  function At(t: Tables, es: seq<Event>, i: nat): Tables
    requires i <= |es|
  {
    if i == 0 then t else Step(At(t, es, i - 1), es[i - 1])
  }

  /** Starts really copy, and no call reads an earlier time than one before it. */
  ghost predicate Legal(t: Tables, es: seq<Event>, start: int) {
    && (forall i :: 0 <= i < |es| && es[i].Restart? ==> IsCopy(At(t, es, i).rows, At(t, es, i).legacy, es[i].after))
    && (forall i :: 0 <= i < |es| ==> start <= es[i].now)
    && (forall i, j :: 0 <= i < j < |es| ==> es[i].now <= es[j].now)
  }

  lemma {:induction false} SameAt(t: Tables, es: seq<Event>, e: Event, i: nat)
    requires i <= |es|
    ensures At(t, es + [e], i) == At(t, es, i)
  {
    hide Step;
    if i > 0 {
      SameAt(t, es, e, i - 1);
      assert (es + [e])[i - 1] == es[i - 1];
    }
  }

  lemma LegalNext(t: Tables, es: seq<Event>, start: int, e: Event)
    requires Legal(t, es, start) && start <= e.now && forall i :: 0 <= i < |es| ==> es[i].now <= e.now
    requires e.Restart? ==> IsCopy(At(t, es, |es|).rows, At(t, es, |es|).legacy, e.after)
    ensures Legal(t, es + [e], start) && At(t, es + [e], |es| + 1) == Step(At(t, es, |es|), e)
  {
    hide Step, IsCopy;
    var all := es + [e];
    forall i | 0 <= i <= |es| ensures At(t, all, i) == At(t, es, i) {
      SameAt(t, es, e, i);
    }
    forall i | 0 <= i < |all| && all[i].Restart?
      ensures IsCopy(At(t, all, i).rows, At(t, all, i).legacy, all[i].after)
    {
    }
  }

  lemma MirrorStep(t: Tables, e: Event)
    requires Mirror(t) && (e.Restart? ==> IsCopy(t.rows, t.legacy, e.after))
    ensures Mirror(Step(t, e)) && (e.Restart? ==> Step(t, e) == t)
  {
    hide Mirror, Connected, Disconnected, IsCopy, Refused;
    if Accepted(t, e) {
      match e
      case Heartbeat(k, x, adapterType, _, now) => ConnectingKeepsMirror(t, k, x, adapterType, now);
      case Force(k, _, reason, now) => DisconnectingKeepsMirror(t, k, reason, now);
      case Restart(after, _) => CopyOfMirror(t, after);
    }
  }

  /** In every run the mirror stays exact, and starts change nothing. */
  lemma {:induction false} MirrorStaysExact(t: Tables, es: seq<Event>, start: int, i: nat)
    requires Mirror(t) && Legal(t, es, start) && i <= |es|
    ensures Mirror(At(t, es, i))
    ensures i < |es| && es[i].Restart? ==> At(t, es, i + 1) == At(t, es, i)
  {
    hide Mirror, Step;
    if i > 0 {
      MirrorStaysExact(t, es, start, i - 1);
      MirrorStep(At(t, es, i - 1), es[i - 1]);
    }
    if i < |es| && es[i].Restart? {
      MirrorStep(At(t, es, i), es[i]);
    }
  }

  /** A manual reconnect that takes a row out of its forced-offline state. */
  predicate Reconnects(t: Tables, e: Event, k: Key) {
    e.Heartbeat? && e.k == k && e.manual && k in t.rows && t.rows[k].state.ForcedOffline?
  }

  /** The row belongs to `x`, seen at `at` or later, or it is forced offline. */
  predicate Reserved(t: Tables, k: Key, x: string, at: int) {
    k in t.rows && (t.rows[k].state.ForcedOffline? || (t.rows[k].instance == x && t.rows[k].lastSeen >= at))
  }

  lemma NotEarlier(t: Tables, es: seq<Event>, start: int, i: nat)
    requires Legal(t, es, start) && i < |es|
    ensures start <= es[i].now
  {
  }

  lemma ReservedStep(t: Tables, e: Event, k: Key, x: string, at: int)
    requires Reserved(t, k, x, at) && !Reconnects(t, e, k) && at <= e.now <= at + TTL && !e.Restart?
    ensures Reserved(Step(t, e), k, x, at)
  {
  }

  lemma {:induction false} StaysReserved(t: Tables, es: seq<Event>, k: Key, x: string, at: int, i: nat)
    requires Mirror(t) && Legal(t, es, at) && i <= |es| && Reserved(t, k, x, at)
    requires forall j :: 0 <= j < i ==> !Reconnects(At(t, es, j), es[j], k) && es[j].now <= at + TTL
    ensures Reserved(At(t, es, i), k, x, at)
  {
    hide Step, Reserved, Reconnects, Mirror, IsCopy, Accepted, Legal;
    if i > 0 {
      StaysReserved(t, es, k, x, at, i - 1);
      MirrorStaysExact(t, es, at, i - 1);
      NotEarlier(t, es, at, i - 1);
      if !es[i - 1].Restart? {
        ReservedStep(At(t, es, i - 1), es[i - 1], k, x, at);
      }
    }
  }

  /**
   After an accepted heartbeat of instance `x` at time `at`, no other instance is accepted for that
   adapter at any time up to `at + TTL`, unless a manual reconnect has ended a forced disconnect.
   */
  lemma OneInstancePerLease(t: Tables, k: Key, x: string, adapterType: string, manual: bool, at: int, es: seq<Event>,
                            i: nat)
    requires Mirror(t) && Refused(t, k, x, TTL, manual, at).None?
    requires Legal(Connected(t, k, x, adapterType, at), es, at)
    requires i < |es| && es[i].Heartbeat? && es[i].k == k && es[i].instance != x && es[i].now <= at + TTL
    requires var now := Connected(t, k, x, adapterType, at);
      forall j :: 0 <= j <= i ==> !Reconnects(At(now, es, j), es[j], k)
    ensures !Accepted(At(Connected(t, k, x, adapterType, at), es, i), es[i])
  {
    var now := Connected(t, k, x, adapterType, at);
    ConnectingKeepsMirror(t, k, x, adapterType, at);
    StaysReserved(now, es, k, x, at, i);
    assert !Reconnects(At(now, es, i), es[i], k);
  }

  /** Nothing is accepted for the row. */
  predicate Untouched(t: Tables, e: Event, k: Key) {
    e.Restart? || e.k != k || !Accepted(t, e)
  }

  lemma UntouchedStep(t: Tables, e: Event, k: Key)
    requires k in t.rows && Untouched(t, e, k) && !e.Restart?
    ensures k in Step(t, e).rows && Step(t, e).rows[k] == t.rows[k]
  {
  }

  lemma {:induction false} StaysUntouched(t: Tables, es: seq<Event>, start: int, k: Key, i: nat)
    requires Mirror(t) && Legal(t, es, start) && i <= |es| && k in t.rows
    requires forall j :: 0 <= j < i ==> Untouched(At(t, es, j), es[j], k)
    ensures k in At(t, es, i).rows && At(t, es, i).rows[k] == t.rows[k]
  {
    hide Step, Mirror, IsCopy, Legal, Accepted;
    if i > 0 {
      StaysUntouched(t, es, start, k, i - 1);
      MirrorStaysExact(t, es, start, i - 1);
      if !es[i - 1].Restart? {
        UntouchedStep(At(t, es, i - 1), es[i - 1], k);
      }
    }
  }

  lemma Expired(t: Tables, e: Event)
    requires e.Heartbeat? && e.k in t.rows && t.rows[e.k].state == Active && t.rows[e.k].lastSeen + 180 < e.now
    ensures var r := Step(t, e).rows;
      && e.k in r && r[e.k].instance == e.instance && r[e.k].state == Active && r[e.k].lastSeen == e.now
      && (t.rows[e.k].instance != e.instance ==> r[e.k].connectedAt == e.now)
  {
  }

  /**
   A lease expires: after an accepted heartbeat at `at`, as long as nothing further is accepted for that
   adapter, the first heartbeat of any other instance later than 180 seconds after it takes the row over.
   */
  lemma ExpiredLeaseIsGiven(t: Tables, k: Key, x: string, adapterType: string, at: int, es: seq<Event>, i: nat)
    requires Mirror(t)
    requires Legal(Connected(t, k, x, adapterType, at), es, at)
    requires i < |es| && es[i].Heartbeat? && es[i].k == k && es[i].instance != x && es[i].now > at + 180
    requires var now := Connected(t, k, x, adapterType, at);
      forall j :: 0 <= j < i ==> Untouched(At(now, es, j), es[j], k)
    ensures var row := At(Connected(t, k, x, adapterType, at), es, i + 1).rows;
      && k in row && row[k].instance == es[i].instance && row[k].state == Active
      && row[k].connectedAt == es[i].now && row[k].lastSeen == es[i].now
  {
    var now := Connected(t, k, x, adapterType, at);
    ConnectingKeepsMirror(t, k, x, adapterType, at);
    assert now.rows[k].instance == x && now.rows[k].state == Active && now.rows[k].lastSeen == at;
    hide Connected, Step, Accepted, Mirror, Legal;
    StaysUntouched(now, es, at, k, i);
    Expired(At(now, es, i), es[i]);
  }

  /** A forced-offline row survives any number of ordinary heartbeats, untouched but for further forced disconnects. */
  lemma {:induction false} ForcedOfflineStays(t: Tables, es: seq<Event>, start: int, k: Key, i: nat)
    requires Mirror(t) && Legal(t, es, start) && i <= |es| && k in t.rows && t.rows[k].state.ForcedOffline?
    requires forall j :: 0 <= j < i && es[j].Heartbeat? && es[j].k == k ==> !es[j].manual
    ensures var r := At(t, es, i).rows;
      k in r && r[k].state.ForcedOffline? && r[k].instance == t.rows[k].instance && r[k].lastSeen == t.rows[k].lastSeen
    ensures (forall j :: 0 <= j < i && es[j].Force? ==> es[j].k != k) ==> At(t, es, i).rows[k] == t.rows[k]
    ensures i < |es| && es[i].Heartbeat? && es[i].k == k && !es[i].manual ==> !Accepted(At(t, es, i), es[i])
  {
    hide Step, Mirror, IsCopy, Legal, Accepted;
    if i > 0 {
      ForcedOfflineStays(t, es, start, k, i - 1);
      MirrorStaysExact(t, es, start, i - 1);
      if !es[i - 1].Restart? {
        OfflineStep(At(t, es, i - 1), es[i - 1], k);
      }
    }
    if i < |es| && es[i].Heartbeat? && es[i].k == k && !es[i].manual {
      OfflineStep(At(t, es, i), es[i], k);
    }
  }

  /** One event and a forced-offline row. */
  lemma OfflineStep(t: Tables, e: Event, k: Key)
    requires k in t.rows && t.rows[k].state.ForcedOffline? && !e.Restart?
    requires e.Heartbeat? && e.k == k ==> !e.manual
    ensures var r := Step(t, e).rows;
      k in r && r[k].state.ForcedOffline? && r[k].instance == t.rows[k].instance && r[k].lastSeen == t.rows[k].lastSeen
      && (!(e.Force? && e.k == k) ==> r[k] == t.rows[k])
    ensures e.Heartbeat? && e.k == k ==> !Accepted(t, e)
  {
  }

  /** Nothing but heartbeats of `x` is accepted for the row. */
  predicate OnlyBy(t: Tables, e: Event, k: Key, x: string) {
    !e.Restart? && e.k == k && Accepted(t, e) ==> e.Heartbeat? && e.instance == x
  }

  predicate Since(t: Tables, k: Key, x: string, at: int) {
    k in t.rows && t.rows[k].state.Active? && t.rows[k].instance == x && t.rows[k].connectedAt == at
  }

  lemma SinceStart(t: Tables, e: Event)
    requires e.Heartbeat? && Accepted(t, e) && !Renews(t, e.k, e.instance)
    ensures Since(Step(t, e), e.k, e.instance, e.now)
  {
  }

  lemma SinceStep(t: Tables, e: Event, k: Key, x: string, at: int)
    requires Since(t, k, x, at) && OnlyBy(t, e, k, x) && !e.Restart?
    ensures Since(Step(t, e), k, x, at)
  {
  }

  /** The connection time is that of the heartbeat which began the unbroken series of heartbeats of one instance. */
  lemma {:induction false} ConnectedSinceTheFirst(t: Tables, es: seq<Event>, start: int, k: Key, i: nat, j: nat)
    requires Mirror(t) && Legal(t, es, start) && i < j <= |es|
    requires es[i].Heartbeat? && es[i].k == k && Accepted(At(t, es, i), es[i])
    requires !Renews(At(t, es, i), k, es[i].instance)
    requires forall m :: i < m < j ==> OnlyBy(At(t, es, m), es[m], k, es[i].instance)
    ensures Since(At(t, es, j), k, es[i].instance, es[i].now)
  {
    hide Step, Since, OnlyBy, Mirror, IsCopy, Accepted, Renews, Legal;
    if j == i + 1 {
      SinceStart(At(t, es, i), es[i]);
    } else {
      ConnectedSinceTheFirst(t, es, start, k, i, j - 1);
      MirrorStaysExact(t, es, start, j - 1);
      if !es[j - 1].Restart? {
        SinceStep(At(t, es, j - 1), es[j - 1], k, es[i].instance, es[i].now);
      }
    }
  }
}
