/**
 The lazy connection pool with exclusive leases, an idle reaper and a draining close. Each
 method is the code between two awaits, so tasks may run in between in any order; tasks are
 not cancelled. Times are seconds of the loop clock.
 */
module SqlitePool {
  import opened Common

  type Conn = nat
  type Task = nat
  type LeaseId = nat

  const IDLE_SECONDS := 30

  /** A lease counts as released in every stage but `Held`. */
  datatype Stage = Held | Releasing | Broken | Done
  datatype Lease = Lease(connection: Conn, stage: Stage)

  datatype Acquired = Granted(lease: LeaseId) | Opening | Wait | Refused

  predicate Distinct<T(==)>(s: seq<T>) {
    forall i, j :: 0 <= i < j < |s| ==> s[i] != s[j]
  }

  /** `max(0, n - 1)` */
  function OneLess(n: nat): nat {
    if n > 0 then n - 1 else 0
  }

  function Elements<T>(s: seq<T>): set<T> {
    set x | x in s
  }

  /** The registered connections are the idle ones and the leased ones; the idle ones have a time. */
  ghost predicate Partition(available: seq<Conn>, idleSince: map<Conn, int>, connections: set<Conn>,
                            leased: set<Conn>)
  {
    && Distinct(available) && idleSince.Keys == Elements(available)
    && connections == Elements(available) + leased && Elements(available) !! leased
  }

  /** The lease is in force until its connection leaves `leased`. */
  predicate InForce(leases: map<LeaseId, Lease>, l: LeaseId) {
    l in leases && !leases[l].stage.Done?
  }

  /** A leased connection has exactly one lease in force; the broken ones are closed but not yet deregistered. */
  ghost predicate Exclusive(leases: map<LeaseId, Lease>, leased: set<Conn>, broken: set<Conn>) {
    && (forall l :: InForce(leases, l) ==> leases[l].connection in leased)
    && (forall l, m :: InForce(leases, l) && InForce(leases, m) && l != m ==>
       leases[l].connection != leases[m].connection)
    && (forall l :: InForce(leases, l) ==> (leases[l].stage.Broken? <==> leases[l].connection in broken))
    && broken <= leased
  }

  ghost predicate Counted(size: nat, connections: set<Conn>, creating: nat, waiters: nat, opening: set<Task>,
                          waiting: set<Task>)
  {
    |connections| + creating <= size && |opening| == creating && |waiting| == waiters
  }

  /** Every connection opened so far is in the pool, about to be closed or closed, and none was closed twice. */
  ghost predicate Accounted(born: set<Conn>, connections: set<Conn>, doomed: set<Conn>, broken: set<Conn>,
                            closings: multiset<Conn>)
  {
    && (forall c :: c in born <==> c in connections || c in doomed || c in closings)
    && connections !! doomed
    && (forall c :: c in closings ==> closings[c] == 1 && c !in doomed && (c in connections ==> c in broken))
    && (forall c :: c in broken ==> c in closings)
  }

  /** What the program does not keep. */
  datatype Book = Book(
    opening: set<Task>,            // tasks that open a connection
    waiting: set<Task>,            // tasks that wait for the condition
    born: set<Conn>,               // every connection opened so far
    doomed: set<Conn>,             // out of the pool, about to be closed
    broken: set<Conn>,             // closed after a failed rollback, still registered
    closings: multiset<Conn>,      // every time a connection was closed
    epoch: nat,                    // how many closes have ended
    drained: bool                  // a close of this epoch has drained the pool
  )

  /** The connections of `available` that have been idle long enough, in order. */
  function Tired(available: seq<Conn>, idleSince: map<Conn, int>, now: int): seq<Conn> {
    if available == [] then []
    else
      var last := available[|available| - 1];
      Tired(available[..|available| - 1], idleSince, now)
      + (if now - (if last in idleSince then idleSince[last] else now) >= IDLE_SECONDS then [last] else [])
  }

  /** No connection is idle from another time on than before. */
  predicate Kept(before: map<Conn, int>, after: map<Conn, int>) {
    forall c :: c in after ==> c in before && after[c] == before[c]
  }

  function Least(a: nat, b: nat): nat {
    if a <= b then a else b
  }

  class Pool {
    const size: nat
    var available: seq<Conn>
    var idleSince: map<Conn, int>
    var connections: set<Conn>
    var leased: set<Conn>
    var creating: nat
    var waiters: nat
    var started: bool
    var closing: bool
    var leases: map<LeaseId, Lease>
    var book: Book

    ghost predicate Valid()
      reads this
    {
      && size >= 1
      && Partition(available, idleSince, connections, leased)
      && Exclusive(leases, leased, book.broken)
      && Counted(size, connections, creating, waiters, book.opening, book.waiting)
      && Accounted(book.born, connections, book.doomed, book.broken, book.closings)
      && (book.drained ==> closing && connections == {} && creating == 0)
    }

    /** Nothing is registered, leased or being opened. */
    ghost predicate Empty()
      reads this
    {
      connections == {} && leased == {} && creating == 0
    }

    constructor (size: int)
      ensures Valid() && available == [] && connections == {} && leased == {} && leases == map[] && creating == 0
      ensures !started && !closing && this.size == (if size < 1 then 1 else size)
      ensures book == Book({}, {}, {}, {}, {}, multiset{}, 0, false)
    {
      this.size := if size < 1 then 1 else size;
      available, idleSince, connections, leased := [], map[], {}, {};
      creating, waiters, started, closing, leases := 0, 0, false, false, map[];
      book := Book({}, {}, {}, {}, {}, multiset{}, 0, false);
    }

    method Start() returns (ok: bool)
      requires Valid()
      modifies this`started
      ensures Valid() && ok == (old(started) || !closing) && started == (old(started) || ok)
    {
      hide Partition, Exclusive, Counted, Accounted;
      if started {
        return true;
      }
      if closing {
        return false;
      }
      started := true;
      return true;
    }

    /** The connection that came back last is leased. */
    method Lend(l: LeaseId)
      requires Valid() && !closing && available != [] && l !in leases
      modifies this`available, this`idleSince, this`leased, this`leases
      ensures Valid()
      ensures var c := old(available)[|old(available)| - 1];
        && available == old(available)[..|old(available)| - 1]
        && idleSince == old(idleSince) - {c}
        && leased == old(leased) + {c} && c !in old(leased) && leases == old(leases)[l := Lease(c, Held)]
    {
      hide Partition, Exclusive, Counted, Accounted;
      var connection := available[|available| - 1];
      LendLast(available, idleSince, connections, leased);
      LeaseFresh(leases, leased, book.broken, l, connection);
      available := available[..|available| - 1];
      idleSince := idleSince - {connection};
      leased := leased + {connection};
      leases := leases[l := Lease(connection, Held)];
    }

    method Reserve(t: Task)
      requires Valid() && !closing && |connections| + creating < size && t !in book.opening
      modifies this`creating, this`book
      ensures Valid() && creating == old(creating) + 1 && book == old(book).(opening := old(book).opening + {t})
    {
      hide Partition, Exclusive, Counted, Accounted;
      CountOpening(size, connections, creating, waiters, book.opening, book.waiting, t);
      creating := creating + 1;
      book := book.(opening := book.opening + {t});
    }

    method Queue(t: Task)
      requires Valid() && t !in book.waiting
      modifies this`waiters, this`book
      ensures Valid() && waiters == old(waiters) + 1 && book == old(book).(waiting := old(book).waiting + {t})
    {
      hide Partition, Exclusive, Counted, Accounted;
      CountWaiting(size, connections, creating, waiters, book.opening, book.waiting, t);
      waiters := waiters + 1;
      book := book.(waiting := book.waiting + {t});
    }

    /** One turn of the loop in `acquire`, under the condition: sqlite_pool.py:153-164. */
    method Turn(t: Task, l: LeaseId) returns (r: Acquired)
      requires Valid() && l !in leases && t !in book.opening && t !in book.waiting
      modifies this`available, this`idleSince, this`leased, this`leases, this`creating, this`waiters, this`book
      ensures Valid()
      ensures r == if closing then Refused else if old(available) != [] then Granted(l)
                   else if |connections| + old(creating) < size then Opening else Wait
      ensures book == old(book).(opening := old(book).opening + (if r.Opening? then {t} else {}),
                                 waiting := old(book).waiting + (if r.Wait? then {t} else {}))
      ensures Kept(old(idleSince), idleSince) && (!r.Granted? ==> idleSince == old(idleSince))
      ensures !r.Granted? ==> leased == old(leased) && leases == old(leases) && available == old(available)
      ensures creating == old(creating) + (if r.Opening? then 1 else 0)
      ensures r.Granted? ==> l in leases && leases[l].stage.Held? && leases[l].connection !in old(leased)
                             && leases == old(leases)[l := leases[l]] && leased == old(leased) + {leases[l].connection}
      ensures r.Granted? ==> old(available) != [] && leases[l].connection == old(available)[|old(available)| - 1]
    {
      hide Partition, Exclusive, Counted, Accounted;
      if closing {
        r := Refused;
      } else if |available| > 0 {
        Lend(l);
        r := Granted(l);
      } else if |connections| + creating < size {
        Reserve(t);
        r := Opening;
      } else {
        Queue(t);
        r := Wait;
      }
    }

    /** `acquire` from its call to the end of its first turn: it starts the pool, which a closing pool refuses. */
    method Acquire(t: Task, l: LeaseId) returns (r: Acquired)
      requires Valid() && l !in leases && t !in book.opening && t !in book.waiting
      modifies this`started, this`available, this`idleSince, this`leased, this`leases, this`creating, this`waiters,
               this`book
      ensures Valid() && started == (old(started) || !closing)
      ensures r == if closing then Refused else if old(available) != [] then Granted(l)
                   else if |connections| + old(creating) < size then Opening else Wait
      ensures book == old(book).(opening := old(book).opening + (if r.Opening? then {t} else {}),
                                 waiting := old(book).waiting + (if r.Wait? then {t} else {}))
      ensures old(Empty()) ==> (r.Opening? <==> !Empty()) && !r.Granted?
      ensures Kept(old(idleSince), idleSince)
      ensures r.Granted? ==> l in leases && leases == old(leases)[l := leases[l]] && leases[l].stage.Held?
                             && leases[l].connection == old(available)[|old(available)| - 1]
      ensures !r.Granted? ==> leased == old(leased) && leases == old(leases) && available == old(available)
      ensures creating == old(creating) + (if r.Opening? then 1 else 0)
    {
      hide Partition, Exclusive, Counted, Accounted;
      EmptyIsIdle(available, idleSince, connections, leased);
      var ok := Start();
      if !ok {
        return Refused;
      }
      r := Turn(t, l);
    }

    /**
     A waiter goes on where it waited, and takes its next turn: `acquire` does not start the pool
     a second time.
     */
    method WokenTurn(t: Task, l: LeaseId) returns (r: Acquired)
      requires Valid() && l !in leases && t in book.waiting && t !in book.opening
      modifies this`available, this`idleSince, this`leased, this`leases, this`creating, this`waiters, this`book
      ensures Valid() && book.epoch == old(book).epoch && book.drained == old(book).drained
      ensures r == if closing then Refused else if old(available) != [] then Granted(l)
                   else if |connections| + old(creating) < size then Opening else Wait
      ensures old(Empty()) ==> (r.Opening? <==> !Empty()) && !r.Granted? && (r.Opening? <==> !closing)
      ensures book.opening == old(book).opening + (if r.Opening? then {t} else {})
      ensures book.waiting == old(book).waiting - (if r.Wait? then {} else {t})
      ensures creating == old(creating) + (if r.Opening? then 1 else 0)
      ensures Kept(old(idleSince), idleSince)
      ensures r.Granted? ==> l in leases && leases == old(leases)[l := leases[l]] && leases[l].stage.Held?
                             && leases[l].connection == old(available)[|old(available)| - 1]
    {
      hide Partition, Exclusive, Counted, Accounted;
      EmptyIsIdle(available, idleSince, connections, leased);
      Unqueue(t);
      r := Turn(t, l);
    }

    /** The waiter wakes up: `finally` in sqlite_pool.py:165-169. */
    method Unqueue(t: Task)
      requires Valid() && t in book.waiting
      modifies this`waiters, this`book
      ensures Valid() && waiters == OneLess(old(waiters)) && book == old(book).(waiting := old(book).waiting - {t})
    {
      hide Partition, Exclusive, Counted, Accounted;
      CountWoken(size, connections, creating, waiters, book.opening, book.waiting, t);
      waiters := OneLess(waiters);
      book := book.(waiting := book.waiting - {t});
    }

    /** Opening raised: sqlite_pool.py:174-178. */
    method OpenFailed(t: Task)
      requires Valid() && t in book.opening
      modifies this`creating, this`book
      ensures creating == OneLess(old(creating))
      ensures Valid() && book == old(book).(opening := old(book).opening - {t})
    {
      hide Partition, Exclusive, Counted, Accounted;
      CountOpened(size, connections, creating, waiters, book.opening, book.waiting, t);
      creating := OneLess(creating);
      book := book.(opening := book.opening - {t});
    }

    /** A new connection while the pool is closing: it is not registered and will be closed. */
    method OpenedTooLate(t: Task, c: Conn)
      requires Valid() && closing && t in book.opening && c !in book.born
      modifies this`creating, this`book
      ensures creating == OneLess(old(creating))
      ensures Valid()
      ensures book == old(book).(opening := old(book).opening - {t}, born := old(book).born + {c},
                                 doomed := old(book).doomed + {c})
    {
      hide Partition, Exclusive, Counted, Accounted;
      CountOpened(size, connections, creating, waiters, book.opening, book.waiting, t);
      BornToClose(book.born, connections, book.doomed, book.broken, book.closings, c);
      creating := OneLess(creating);
      book := book.(opening := book.opening - {t}, born := book.born + {c}, doomed := book.doomed + {c});
    }

    lemma OpensInTime(t: Task, c: Conn, l: LeaseId)
      requires Valid() && t in book.opening && c !in book.born && l !in leases
      ensures c !in leased
      ensures Partition(available, idleSince, connections + {c}, leased + {c})
      ensures Exclusive(leases[l := Lease(c, Held)], leased + {c}, book.broken)
      ensures Counted(size, connections + {c}, OneLess(creating), waiters, book.opening - {t}, book.waiting)
      ensures Accounted(book.born + {c}, connections + {c}, book.doomed, book.broken, book.closings)
    {
      hide Partition, Exclusive, Counted, Accounted;
      NotBorn(book.born, connections, book.doomed, book.broken, book.closings, c);
      LeasedAreRegistered(available, idleSince, connections, leased);
      CountRegistered(size, connections, creating, waiters, book.opening, book.waiting, t, c);
      BornToServe(book.born, connections, book.doomed, book.broken, book.closings, c);
      RegisterLeased(available, idleSince, connections, leased, c);
      LeaseFresh(leases, leased, book.broken, l, c);
    }

    method OpenedInTime(t: Task, c: Conn, l: LeaseId)
      requires Valid() && !closing && t in book.opening && c !in book.born && l !in leases
      modifies this`connections, this`leased, this`leases, this`creating, this`book
      ensures creating == OneLess(old(creating))
      ensures Valid() && leases == old(leases)[l := Lease(c, Held)]
      ensures connections == old(connections) + {c} && leased == old(leased) + {c} && c !in old(leased)
      ensures book == old(book).(opening := old(book).opening - {t}, born := old(book).born + {c})
    {
      hide Partition, Exclusive, Counted, Accounted;
      OpensInTime(t, c, l);
      creating := OneLess(creating);
      connections := connections + {c};
      leased := leased + {c};
      leases := leases[l := Lease(c, Held)];
      book := book.(opening := book.opening - {t}, born := book.born + {c});
    }

    /** sqlite_pool.py:180-192: a connection has been opened; in a closing pool its task is refused. */
    method Opened(t: Task, c: Conn, l: LeaseId) returns (granted: bool)
      requires Valid() && t in book.opening && c !in book.born && l !in leases
      modifies this`connections, this`leased, this`leases, this`creating, this`book
      ensures creating == OneLess(old(creating))
      ensures Valid() && granted == !closing && book.opening == old(book).opening - {t}
      ensures book.born == old(book).born + {c}
      ensures book == old(book).(opening := book.opening, born := book.born, doomed := book.doomed)
      ensures granted ==> leases == old(leases)[l := Lease(c, Held)] && c !in old(leased) && leased == old(leased) + {c}
      ensures granted ==> connections == old(connections) + {c} && book.doomed == old(book).doomed
      ensures !granted ==>
                c in book.doomed && leases == old(leases) && leased == old(leased) && connections == old(connections)
    {
      hide Partition, Exclusive, Counted, Accounted;
      if closing {
        OpenedTooLate(t, c);
        return false;
      } else {
        OpenedInTime(t, c, l);
        return true;
      }
    }

    /** `SQLiteLease.close`: only the first call releases. */
    method CloseLease(l: LeaseId) returns (first: bool)
      requires Valid() && l in leases
      modifies this`leases
      ensures Valid() && first == old(leases)[l].stage.Held?
      ensures leases == if first then old(leases)[l := old(leases)[l].(stage := Releasing)] else old(leases)
    {
      hide Partition, Exclusive, Counted, Accounted;
      first := leases[l].stage.Held?;
      if first {
        StageReleasing(leases, leased, book.broken, l);
        leases := leases[l := leases[l].(stage := Releasing)];
      }
    }

    /** The rollback of a release failed: the connection is closed while it is still registered. */
    method RollbackFailed(l: LeaseId)
      requires Valid() && l in leases && leases[l].stage.Releasing?
      modifies this`leases, this`book
      ensures Valid() && leases == old(leases)[l := old(leases)[l].(stage := Broken)]
      ensures var c := old(leases)[l].connection;
        c !in old(book).closings
        && book == old(book).(broken := old(book).broken + {c}, closings := old(book).closings + multiset{c})
    {
      hide Partition, Exclusive, Counted, Accounted;
      var c := leases[l].connection;
      InForceIsLeased(leases, leased, book.broken, l);
      LeasedAreRegistered(available, idleSince, connections, leased);
      CloseRegistered(book.born, connections, book.doomed, book.broken, book.closings, c);
      StageBroken(leases, leased, book.broken, l);
      leases := leases[l := leases[l].(stage := Broken)];
      book := book.(broken := book.broken + {c}, closings := book.closings + multiset{c});
    }

    method Deregister(l: LeaseId)
      requires Valid() && l in leases && leases[l].stage.Broken?
      modifies this`leases, this`leased, this`connections, this`idleSince, this`book
      ensures Valid() && leases == old(leases)[l := old(leases)[l].(stage := Done)]
      ensures var c := old(leases)[l].connection;
        leased == old(leased) - {c} && connections == old(connections) - {c} && idleSince == old(idleSince) - {c}
          && book == old(book).(broken := old(book).broken - {c})
    {
      hide Partition, Exclusive, Counted, Accounted;
      var c := leases[l].connection;
      InForceIsLeased(leases, leased, book.broken, l);
      LeasedAreRegistered(available, idleSince, connections, leased);
      UnregisterLeased(available, idleSince, connections, leased, c);
      CountFewer(size, connections, connections - {c}, creating, waiters, book.opening, book.waiting);
      ForgetBroken(book.born, connections, book.doomed, book.broken, book.closings, c);
      StageDone(leases, leased, book.broken, l);
      leases := leases[l := leases[l].(stage := Done)];
      leased := leased - {c};
      connections := connections - {c};
      idleSince := idleSince - {c};
      book := book.(broken := book.broken - {c});
    }

    method GiveBack(l: LeaseId, now: int)
      requires Valid() && !closing && l in leases && leases[l].stage.Releasing?
      modifies this`leases, this`leased, this`available, this`idleSince
      ensures Valid() && leases == old(leases)[l := old(leases)[l].(stage := Done)]
      ensures var c := old(leases)[l].connection;
        leased == old(leased) - {c} && available == old(available) + [c] && idleSince == old(idleSince)[c := now]
    {
      hide Partition, Exclusive, Counted, Accounted;
      var c := leases[l].connection;
      InForceIsLeased(leases, leased, book.broken, l);
      ReturnIdle(available, idleSince, connections, leased, c, now);
      StageDone(leases, leased, book.broken, l);
      NotBroken(leases, leased, book.broken, l);
      leases := leases[l := leases[l].(stage := Done)];
      leased := leased - {c};
      available := available + [c];
      idleSince := idleSince[c := now];
    }

    method Retire(l: LeaseId)
      requires Valid() && closing && l in leases && leases[l].stage.Releasing?
      modifies this`leases, this`leased, this`connections, this`idleSince, this`book
      ensures Valid() && leases == old(leases)[l := old(leases)[l].(stage := Done)]
      ensures var c := old(leases)[l].connection;
        leased == old(leased) - {c} && connections == old(connections) - {c} && idleSince == old(idleSince) - {c}
        && book == old(book).(doomed := old(book).doomed + {c})
    {
      hide Partition, Exclusive, Counted, Accounted;
      var c := leases[l].connection;
      InForceIsLeased(leases, leased, book.broken, l);
      LeasedAreRegistered(available, idleSince, connections, leased);
      NotBroken(leases, leased, book.broken, l);
      UnregisterLeased(available, idleSince, connections, leased, c);
      CountFewer(size, connections, connections - {c}, creating, waiters, book.opening, book.waiting);
      Condemn(book.born, connections, book.doomed, book.broken, book.closings, {c});
      StageDone(leases, leased, book.broken, l);
      leases := leases[l := leases[l].(stage := Done)];
      leased := leased - {c};
      connections := connections - {c};
      idleSince := idleSince - {c};
      book := book.(doomed := book.doomed + {c});
    }

    /** sqlite_pool.py:206-219: a lease is over; its connection is idle again, or leaves a closing pool. */
    method Release(l: LeaseId, now: int)
      requires Valid() && l in leases && leases[l].stage.Releasing?
      modifies this`leases, this`leased, this`available, this`idleSince, this`connections, this`book
      ensures Valid() && leases == old(leases)[l := old(leases)[l].(stage := Done)]
      ensures var c := old(leases)[l].connection;
        leased == old(leased) - {c}
        && (if closing then c in book.doomed && available == old(available) else available == old(available) + [c])
      ensures var c := old(leases)[l].connection;
        if closing then idleSince == old(idleSince) - {c}
        else idleSince == old(idleSince)[c := now]
      ensures closing ==> connections == old(connections) - {old(leases)[l].connection}
                          && book.doomed == old(book).doomed + {old(leases)[l].connection}
      ensures book == old(book).(doomed := book.doomed)
      ensures connections <= old(connections)
      ensures !closing ==> connections == old(connections) && book.doomed == old(book).doomed
    {
      hide Partition, Exclusive, Counted, Accounted;
      if closing {
        Retire(l);
      } else {
        GiveBack(l, now);
      }
    }

    /** A connection that left the pool is closed; it never was before. */
    method CloseConnection(c: Conn)
      requires Valid() && c in book.doomed
      modifies this`book
      ensures Valid() && c !in old(book).closings
      ensures book == old(book).(doomed := old(book).doomed - {c}, closings := old(book).closings + multiset{c})
    {
      hide Partition, Exclusive, Counted, Accounted;
      CloseCondemned(book.born, connections, book.doomed, book.broken, book.closings, c);
      book := book.(doomed := book.doomed - {c}, closings := book.closings + multiset{c});
    }

    lemma IdleLeaves(c: Conn)
      requires Valid() && c in Elements(available)
      ensures Partition(Without(available, c), idleSince - {c}, connections - {c}, leased)
      ensures Elements(Without(available, c)) == Elements(available) - {c}
      ensures Counted(size, connections - {c}, creating, waiters, book.opening, book.waiting)
      ensures Accounted(book.born, connections - {c}, book.doomed + {c}, book.broken, book.closings)
      ensures c in connections
    {
      hide Partition, Exclusive, Counted, Accounted, Without, Elements;
      IdleIsFree(available, idleSince, connections, leased, c);
      BrokenIsLeased(leases, leased, book.broken);
      RemoveIdle(available, idleSince, connections, leased, c);
      CountFewer(size, connections, connections - {c}, creating, waiters, book.opening, book.waiting);
      Condemn(book.born, connections, book.doomed, book.broken, book.closings, {c});
    }

    /** An idle connection leaves the pool and will be closed. */
    method TakeIdle(c: Conn)
      requires Valid() && c in Elements(available)
      modifies this`available, this`idleSince, this`connections, this`book
      ensures Valid() && book == old(book).(doomed := old(book).doomed + {c})
      ensures Elements(available) == Elements(old(available)) - {c} && idleSince == old(idleSince) - {c}
      ensures connections == old(connections) - {c} && |connections| == |old(connections)| - 1
    {
      hide Partition, Exclusive, Counted, Accounted, Without, Elements;
      IdleLeaves(c);
      available := Without(available, c);
      idleSince := idleSince - {c};
      connections := connections - {c};
      book := book.(doomed := book.doomed + {c});
    }

    /** The loop of a pass: sqlite_pool.py:239-248. */
    method TakeTired(now: int) returns (toClose: seq<Conn>)
      requires Valid() && |connections| > 1
      modifies this`available, this`idleSince, this`connections, this`book
      ensures Valid() && book == old(book).(doomed := old(book).doomed + Elements(toClose))
      ensures var tired := Tired(old(available), old(idleSince), now);
        toClose == tired[..Least(|tired|, |old(connections)| / 2)]
      ensures |connections| == |old(connections)| - |toClose|
      ensures Elements(available) == Elements(old(available)) - Elements(toClose)
      ensures idleSince == old(idleSince) - Elements(toClose)
    {
      hide Partition, Exclusive, Counted, Accounted, Tired, Elements, Distinct;
      var candidates, times, n := available, idleSince, |connections|;
      DistinctIdle(available, idleSince, connections, leased);
      TiredStart(times, now);
      toClose := [];
      var k := 0;
      while k < |candidates|
        invariant 0 <= k <= |candidates| && Valid()
        invariant toClose == Tired(candidates[..k], times, now) && 2 * |toClose| <= n && |connections| == n - |toClose|
        invariant Elements(toClose) <= Elements(candidates[..k])
        invariant Elements(available) == Elements(candidates) - Elements(toClose)
        invariant idleSince == times - Elements(toClose)
        invariant book == old(book).(doomed := old(book).doomed + Elements(toClose))
      {
        if |connections| - |toClose| <= 1 {
          break;
        }
        var c := candidates[k];
        TiredNext(candidates, k, times, now);
        AheadOf(candidates, k);
        var waited := now - (if c in idleSince then idleSince[c] else now);
        if waited >= IDLE_SECONDS {
          TakeIdle(c);
          OneMore(toClose, c);
          toClose := toClose + [c];
        }
        k := k + 1;
      }
      TiredPrefix(candidates, k, times, now);
      assert candidates[..|candidates|] == candidates;
    }

    /**
     One pass of the idle reaper (sqlite_pool.py:235-250). Of `n` connections it takes those that
     have been idle long enough, in the order of their return, up to half of `n`: never the last one.
     */
    method Reap(now: int) returns (toClose: seq<Conn>, goOn: bool)
      requires Valid()
      modifies this`available, this`idleSince, this`connections, this`book
      ensures Valid() && book == old(book).(doomed := old(book).doomed + Elements(toClose))
      ensures closing || |old(connections)| <= 1 ==> toClose == [] && !goOn && connections == old(connections)
      ensures !closing && |old(connections)| > 1 ==>
                var tired := Tired(old(available), old(idleSince), now);
                && toClose == tired[..Least(|tired|, |old(connections)| / 2)]
                && |connections| == |old(connections)| - |toClose| && |connections| >= 1 && goOn == (|connections| > 1)
      ensures Elements(available) == Elements(old(available)) - Elements(toClose)
      ensures idleSince == old(idleSince) - Elements(toClose)
    {
      hide Partition, Exclusive, Counted, Accounted, Tired, Elements;
      TiredStart(idleSince, now);
      if closing || |connections| <= 1 {
        return [], false;
      }
      toClose := TakeTired(now);
      goOn := |connections| > 1;
    }

    method DrainClosing() returns (done: bool)
      requires Valid()
      modifies this`available, this`idleSince, this`connections, this`book
      ensures Valid() && (done ==> Empty()) && Kept(old(idleSince), idleSince)
    {
      hide Partition, Exclusive, Counted, Accounted;
      done := Drain();
    }

    method BeginClose()
      requires Valid()
      modifies this`closing
      ensures Valid() && closing
    {
      hide Partition, Exclusive, Counted, Accounted;
      closing := true;
    }

    /** sqlite_pool.py:276-282: waits until nothing is leased or being created, then empties the pool. */
    method Drain() returns (done: bool)
      requires Valid()
      modifies this`available, this`idleSince, this`connections, this`book
      ensures Valid() && done == (old(leased) == {} && creating == 0)
      ensures done ==> connections == {} && available == [] && book.doomed == old(book).doomed + old(connections)
      ensures done ==> book == old(book).(doomed := book.doomed, drained := closing)
      ensures if done then idleSince == map[] else idleSince == old(idleSince)
      ensures !done ==> connections == old(connections) && available == old(available) && book == old(book)
    {
      hide Partition, Exclusive, Counted, Accounted;
      if leased != {} || creating != 0 {
        return false;
      }
      CountFewer(size, connections, {}, creating, waiters, book.opening, book.waiting);
      NothingBroken(leases, leased, book.broken);
      Condemn(book.born, connections, book.doomed, book.broken, book.closings, connections);
      assert connections - connections == {};
      book := book.(doomed := book.doomed + connections, drained := closing);
      EmptyPartition(leased);
      available := [];
      idleSince := map[];
      connections := {};
      return true;
    }

    /** The last step of `close`. */
    method EndClose()
      requires Valid()
      modifies this`started, this`closing, this`book
      ensures Valid() && !started && !closing && book == old(book).(epoch := old(book).epoch + 1, drained := false)
      ensures old(book).drained ==> connections == {} && leased == {} && creating == 0
    {
      hide Partition, Exclusive, Counted, Accounted;
      if book.drained {
        LeasedAreRegistered(available, idleSince, connections, leased);
      }
      started := false;
      closing := false;
      book := book.(epoch := book.epoch + 1, drained := false);
    }

    // ----- Whole runs -----

    /**
     The reaper over a pool whose connections have all been idle long enough: back to one in the
     least `k` with 2^k >= n.
     */
    method Converge(now: int) returns (passes: nat)
      requires Valid() && !closing && leased == {} && connections != {}
      requires forall c :: c in idleSince ==> now - idleSince[c] >= IDLE_SECONDS
      modifies this`available, this`idleSince, this`connections, this`book
      ensures Valid() && |connections| == 1 && passes == Passes(|old(connections)|)
    {
      hide Partition, Exclusive, Counted, Accounted, Tired, Elements;
      passes := 0;
      var goOn := |connections| > 1;
      if connections == {} {
        assert false;
      }
      while goOn
        invariant Valid() && !closing && leased == {}
        invariant |connections| >= 1 && goOn == (|connections| > 1)
        invariant forall c :: c in idleSince ==> now - idleSince[c] >= IDLE_SECONDS
        invariant passes + Passes(|connections|) == Passes(|old(connections)|)
        decreases |connections|
      {
        AllTired(available, idleSince, connections, leased, now);
        var toClose;
        toClose, goOn := Reap(now);
        passes := passes + 1;
      }
    }

    /** Any step of a task that acquires; `brought` says that its turn was granted a connection or began to open one. */
    method AnyAcquiring() returns (ghost brought: bool)
      requires Valid()
      modifies this
      ensures Valid() && book.epoch == old(book).epoch && closing == old(closing)
      ensures old(book).drained ==> book.drained
      ensures old(Empty()) ==> (brought <==> !Empty())
      ensures brought ==> !closing
      ensures Kept(old(idleSince), idleSince)
    {
      hide Partition, Exclusive, Counted, Accounted;
      NobodyOpens(size, connections, creating, waiters, book.opening, book.waiting);
      var choice: int, t: Task, l: LeaseId, c: Conn := *, *, *, *;
      brought := false;
      if choice == 0 {
        var ok := Start();
      } else if choice == 1 && l !in leases && t !in book.opening && t !in book.waiting {
        var r := Acquire(t, l);
        brought := r.Granted? || r.Opening?;
      } else if choice == 2 && t in book.waiting && t !in book.opening && l !in leases {
        var r := WokenTurn(t, l);
        brought := r.Granted? || r.Opening?;
      } else {
        AnyOpening(t, c, l);
      }
    }

    /** An opening ends, well or badly. */
    method AnyOpening(t: Task, c: Conn, l: LeaseId)
      requires Valid()
      modifies this
      ensures Valid() && book.epoch == old(book).epoch && closing == old(closing) && started == old(started)
      ensures old(book).drained ==> book.drained
      ensures old(Empty()) ==> Empty()
      ensures idleSince == old(idleSince)
    {
      hide Partition, Exclusive, Counted, Accounted;
      NobodyOpens(size, connections, creating, waiters, book.opening, book.waiting);
      var fails: bool := *;
      if fails && t in book.opening {
        OpenFailed(t);
      } else if t in book.opening && c !in book.born && l !in leases {
        var granted := Opened(t, c, l);
      }
    }

    /** Any step of a lease that is given up, or of the reaper, at time `now`; `taken` is what a pass takes. */
    method AnyReleasing(now: int) returns (ghost taken: seq<Conn>)
      requires Valid()
      modifies this
      ensures Valid() && book.epoch == old(book).epoch && closing == old(closing) && started == old(started)
      ensures old(book).drained ==> book.drained
      ensures old(Empty()) ==> Empty()
      ensures forall c :: c in idleSince ==>
                (c in old(idleSince) && idleSince[c] == old(idleSince)[c]) || idleSince[c] == now
      ensures forall c :: c in taken ==> c in old(idleSince) && now - old(idleSince)[c] >= 30
    {
      hide Partition, Exclusive, Counted, Accounted, Tired, Elements;
      var choice: int, l: LeaseId, c: Conn := *, *, *;
      taken := [];
      if choice == 0 && l in leases {
        var first := CloseLease(l);
      } else if choice == 1 && l in leases && leases[l].stage.Releasing? {
        RollbackFailed(l);
      } else if choice == 2 && l in leases && leases[l].stage.Broken? {
        Deregister(l);
      } else if choice == 3 && l in leases && leases[l].stage.Releasing? {
        Release(l, now);
      } else if choice == 4 && c in book.doomed {
        CloseConnection(c);
      } else {
        TakenAreTired(available, idleSince, connections, leased, now);
        var toClose, goOn := Reap(now);
        taken := toClose;
      }
    }

    /** Any step of some other close; `ended` says that it was the last one. */
    method AnyClosing() returns (ghost ended: bool)
      requires Valid()
      modifies this
      ensures Valid()
      ensures !ended ==>
                book.epoch == old(book).epoch && (old(closing) ==> closing) && (old(book).drained ==> book.drained)
      ensures ended ==> !started && book.epoch == old(book).epoch + 1
      ensures old(Empty()) ==> Empty()
      ensures Kept(old(idleSince), idleSince)
      ensures !old(started) ==> !started
    {
      hide Partition, Exclusive, Counted, Accounted;
      var choice: int := *;
      ended := false;
      if choice == 0 {
        BeginClose();
      } else if choice == 1 {
        var done := Drain();
      } else if choice == 2 {
        EndClose();
        ended := true;
      }
    }

    /**
     Everything that other tasks can do meanwhile. `stayed`: the pool was empty in every state;
     `brought`: some turn was granted a connection or began to open one; `recent`: one did since the
     pool was last empty; `overlapped`: another close ended. From an empty closing pool on, it stays
     empty exactly when no turn brings something, is left non-empty exactly when one did since it
     was last empty, and none does until another close ends.
     */
    method Others(steps: nat)
      returns (ghost stayed: bool, ghost brought: bool, ghost recent: bool, ghost overlapped: bool)
      requires Valid()
      modifies this
      ensures Valid()
      ensures !overlapped ==>
                book.epoch == old(book).epoch && (old(closing) ==> closing) && (old(book).drained ==> book.drained)
      ensures stayed ==> Empty()
      ensures old(Empty()) ==> (stayed <==> !brought) && (Empty() <==> !recent)
      ensures recent ==> brought
      ensures old(closing) && brought ==> overlapped
    {
      hide Partition, Exclusive, Counted, Accounted;
      stayed, brought, recent, overlapped := Empty(), false, false, false;
      for k := 0 to steps
        invariant Valid() && (stayed ==> Empty())
        invariant !overlapped ==>
                    book.epoch == old(book).epoch && (old(closing) ==> closing) && (old(book).drained ==> book.drained)
        invariant old(Empty()) ==> (stayed <==> !brought) && (Empty() <==> !recent)
        invariant recent ==> brought
        invariant old(closing) && brought ==> overlapped
      {
        var choice: int := *;
        if choice == 0 {
          ghost var b := AnyAcquiring();
          brought, recent := brought || b, recent || b;
        } else if choice == 1 {
          var now: int := *;
          ghost var taken := AnyReleasing(now);
        } else {
          ghost var e := AnyClosing();
          overlapped := overlapped || e;
        }
        stayed, recent := stayed && Empty(), recent && !Empty();
      }
    }

    /**
     From the release of a connection into an open pool at time `back` on, whatever other tasks do, in
     whatever order: no pass within thirty seconds takes that connection. `passes` are the passes in
     between, with the time of each and what it took. Times do not run backwards.
     */
    method RestsAWhile(l: LeaseId, back: int, steps: nat) returns (ghost passes: seq<(int, seq<Conn>)>)
      requires Valid() && !closing && l in leases && leases[l].stage.Releasing?
      modifies this
      ensures Valid()
      ensures forall k :: 0 <= k < |passes| && old(leases)[l].connection in passes[k].1 ==> passes[k].0 >= back + 30
    {
      hide Partition, Exclusive, Counted, Accounted;
      var c := leases[l].connection;
      Release(l, back);
      passes := [];
      var clock := back;
      for step := 0 to steps
        invariant Valid() && clock >= back
        invariant c in idleSince ==> idleSince[c] >= back
        invariant forall k :: 0 <= k < |passes| && c in passes[k].1 ==> passes[k].0 >= back + 30
      {
        var choice: int, now: int := *, *;
        if choice == 0 {
          ghost var brought := AnyAcquiring();
        } else if choice == 1 {
          clock := if now > clock then now else clock;
          ghost var taken := AnyReleasing(clock);
          passes := passes + [(clock, taken)];
        } else {
          ghost var ended := AnyClosing();
        }
      }
    }

    /**
     `close` among any steps of other tasks. From its own drain to its end the pool is empty exactly
     when no turn is granted a connection or begins to open one; it is not empty at the end exactly
     when such a turn has come since it was last empty (an opening that fails empties it again); and
     that takes another close which ends while this one is under way.
     */
    method Close(before: nat, after: nat)
      returns (ended: bool, ghost stayed: bool, ghost brought: bool, ghost recent: bool, ghost overlapped: bool)
      requires Valid()
      modifies this
      ensures Valid()
      ensures ended ==> !closing && !started && (stayed <==> !brought) && (stayed ==> Empty())
      ensures ended ==> (!Empty() <==> recent) && (recent ==> brought) && (brought ==> overlapped)
    {
      hide Partition, Exclusive, Counted, Accounted;
      BeginClose();
      stayed, brought, recent, overlapped := Others(before);
      ended := DrainClosing();
      if ended {
        ghost var again;
        stayed, brought, recent, again := Others(after);
        overlapped := overlapped || again;
        EndClose();
      }
    }

    /**
     What a closed pool can still see before anyone starts it again: waiters that go on, leases that
     are given up, other closes. It stays empty exactly when no task that waited since before the
     close takes its turn, or only while a new close is under way, which refuses it.
     */
    method AfterClose(steps: nat) returns (ghost stayed: bool, ghost turned: bool)
      requires Valid() && Empty() && !started
      modifies this
      ensures Valid() && (stayed <==> !turned) && (stayed ==> Empty()) && !started
    {
      hide Partition, Exclusive, Counted, Accounted;
      stayed, turned := true, false;
      for k := 0 to steps
        invariant Valid() && (stayed <==> !turned) && (stayed ==> Empty()) && !started
      {
        var choice: int, t: Task, l: LeaseId, c: Conn := *, *, *, *;
        if choice == 0 && t in book.waiting && t !in book.opening && l !in leases {
          turned := turned || !closing;
          var r := WokenTurn(t, l);
        } else if choice == 1 {
          AnyOpening(t, c, l);
        } else if choice == 2 {
          var now: int := *;
          ghost var taken := AnyReleasing(now);
        } else {
          ghost var e := AnyClosing();
        }
        stayed := stayed && Empty();
      }
    }
  }

  /** A pool with one idle connection: opened, leased and given back. */
  method OneIdle() returns (p: Pool)
    ensures fresh(p) && p.Valid() && p.size == 1 && p.started && !p.closing && p.available == [0]
    ensures p.connections == {0} && p.leased == {} && p.creating == 0 && p.leases.Keys == {0} && p.book.born == {0}
    ensures p.book.opening == {} && p.book.waiting == {} && p.book.doomed == {}
  {
    hide Partition, Exclusive, Counted, Accounted;
    p := new Pool(1);
    var r := p.Acquire(0, 0);
    assert r == Opening && p.book.opening == {0};
    var granted := p.Opened(0, 0, 0);
    var first := p.CloseLease(0);
    p.Release(0, 0);
  }

  /**
   Two closes that overlap: while the first one closes the idle connection it has drained, the
   second one finds nothing to do and ends; the pool is started again and leases a connection,
   and then the first close ends.
   */
  method OverlappingCloses() returns (p: Pool)
    ensures fresh(p) && p.Valid() && !p.started && p.leased == {1}
  {
    hide Partition, Exclusive, Counted, Accounted;
    p := ClosedInBetween();
    var r := p.Acquire(1, 1);
    var granted := p.Opened(1, 1, 1);
    p.CloseConnection(0);
    p.EndClose();
  }

  /** The first close has still to close connection 0 when the second one ends. */
  method ClosedInBetween() returns (p: Pool)
    ensures fresh(p) && p.Valid() && p.size == 1 && !p.started && !p.closing && p.Empty() && p.available == []
    ensures p.leases.Keys == {0} && p.book.born == {0} && p.book.doomed == {0}
    ensures p.book.opening == {} && p.book.waiting == {}
  {
    hide Partition, Exclusive, Counted, Accounted;
    p := OneIdle();
    p.BeginClose();
    var drained := p.Drain();
    p.BeginClose();
    drained := p.Drain();
    p.EndClose();
  }

  /** Task 2 waits for the place of task 1, which fails to open a connection. */
  method OneWaits() returns (p: Pool)
    ensures fresh(p) && p.Valid() && p.size == 1 && !p.closing && p.Empty() && p.leases == map[]
    ensures p.book.waiting == {2} && p.book.opening == {}
  {
    hide Partition, Exclusive, Counted, Accounted;
    p := new Pool(1);
    var one := p.Acquire(1, 1);
    assert one == Opening && p.book.opening == {1} && p.creating == 1;
    var two := p.Acquire(2, 2);
    assert two == Wait && p.book.waiting == {2} && p.book.opening == {1};
    p.OpenFailed(1);
  }

  /** A waiter that is woken just before a close comes back to a closed pool, and opens a connection there. */
  method WokenWaiterReopens() returns (p: Pool)
    ensures fresh(p) && p.Valid() && !p.started && p.creating == 1
  {
    hide Partition, Exclusive, Counted, Accounted;
    p := OneWaits();
    p.BeginClose();
    var drained := p.Drain();
    assert drained;
    p.EndClose();
    var r := p.WokenTurn(2, 2);
  }

  /** How many passes an idle pool of `n` connections needs. */
  function Passes(n: nat): nat {
    if n <= 1 then 0 else 1 + Passes(n - n / 2)
  }

  function Power(k: nat): nat {
    if k == 0 then 1 else 2 * Power(k - 1)
  }

  /** The binary logarithm of `n`, rounded up. */
  lemma {:induction false} PassesAreLogarithmic(n: nat)
    requires n >= 1
    ensures n <= Power(Passes(n)) && (n > 1 ==> Power(Passes(n) - 1) < n)
  {
    if n > 2 {
      PassesAreLogarithmic(n - n / 2);
    }
  }

  lemma {:induction false} LengthIsSize(s: seq<Conn>)
    requires Distinct(s)
    ensures |Elements(s)| == |s|
  {
    if s != [] {
      LengthIsSize(s[..|s| - 1]);
      LastOut(s);
      assert Elements(s) == Elements(s[..|s| - 1]) + {s[|s| - 1]};
    }
  }

  lemma {:induction false} TiredAll(s: seq<Conn>, idleSince: map<Conn, int>, now: int)
    requires forall c :: c in s ==> c in idleSince && now - idleSince[c] >= IDLE_SECONDS
    ensures Tired(s, idleSince, now) == s
  {
    if s != [] {
      TiredAll(s[..|s| - 1], idleSince, now);
      assert s == s[..|s| - 1] + [s[|s| - 1]];
    }
  }

  lemma AllTired(available: seq<Conn>, idleSince: map<Conn, int>, connections: set<Conn>, leased: set<Conn>, now: int)
    requires Partition(available, idleSince, connections, leased) && leased == {}
    requires forall c :: c in idleSince ==> now - idleSince[c] >= IDLE_SECONDS
    ensures Tired(available, idleSince, now) == available && |available| == |connections|
  {
    forall c | c in available ensures c in idleSince && now - idleSince[c] >= IDLE_SECONDS {
      assert c in Elements(available);
    }
    TiredAll(available, idleSince, now);
    LengthIsSize(available);
    assert Elements(available) + leased == Elements(available);
  }

  // ----- What a pass takes -----

  /** `x` stands before `y`. */
  ghost predicate Before(s: seq<Conn>, x: Conn, y: Conn) {
    exists k, l :: 0 <= k < l < |s| && s[k] == x && s[l] == y
  }

  /** Exactly the connections that have been idle long enough, in the order of their return. */
  lemma {:induction false} TiredMeans(s: seq<Conn>, idleSince: map<Conn, int>, now: int)
    requires forall c :: c in s ==> c in idleSince
    ensures forall c :: c in Tired(s, idleSince, now) <==> c in s && now - idleSince[c] >= 30
    ensures forall x, y :: Before(Tired(s, idleSince, now), x, y) ==> Before(s, x, y)
  {
    if s != [] {
      var front, last := s[..|s| - 1], s[|s| - 1];
      TiredMeans(front, idleSince, now);
      assert s == front + [last];
      var tired := Tired(s, idleSince, now);
      forall x, y | Before(tired, x, y) ensures Before(s, x, y) {
        var k, l :| 0 <= k < l < |tired| && tired[k] == x && tired[l] == y;
        if l < |Tired(front, idleSince, now)| {
          assert Before(Tired(front, idleSince, now), x, y);
          var m, n :| 0 <= m < n < |front| && front[m] == x && front[n] == y;
          assert s[m] == x && s[n] == y;
        } else {
          assert x == Tired(front, idleSince, now)[k] && x in Tired(front, idleSince, now);
          var m :| 0 <= m < |front| && front[m] == x;
          assert s[m] == x && s[|s| - 1] == y;
        }
      }
    }
  }

  lemma TakenAreTired(available: seq<Conn>, idleSince: map<Conn, int>, connections: set<Conn>, leased: set<Conn>,
                      now: int)
    requires Partition(available, idleSince, connections, leased)
    ensures forall c :: c in Tired(available, idleSince, now) ==> c in idleSince && now - idleSince[c] >= IDLE_SECONDS
  {
    assert forall c :: c in available ==> c in Elements(available);
    TiredMeans(available, idleSince, now);
  }

  lemma TiredStart(idleSince: map<Conn, int>, now: int)
    ensures Tired([], idleSince, now) == [] && Elements<Conn>([]) == {}
  {
  }

  lemma TiredNext(s: seq<Conn>, k: nat, idleSince: map<Conn, int>, now: int)
    requires k < |s|
    ensures Tired(s[..k + 1], idleSince, now) ==
            Tired(s[..k], idleSince, now)
            + (if now - (if s[k] in idleSince then idleSince[s[k]] else now) >= IDLE_SECONDS then [s[k]] else [])
    ensures Elements(s[..k + 1]) == Elements(s[..k]) + {s[k]}
  {
    assert s[..k + 1][..k] == s[..k];
    assert s[..k + 1] == s[..k] + [s[k]];
  }

  lemma OneMore(s: seq<Conn>, c: Conn)
    ensures Elements(s + [c]) == Elements(s) + {c}
  {
  }

  lemma AheadOf(s: seq<Conn>, k: nat)
    requires k < |s| && Distinct(s)
    ensures s[k] in Elements(s) && s[k] !in Elements(s[..k])
  {
  }

  lemma {:induction false} TiredPrefix(s: seq<Conn>, k: nat, idleSince: map<Conn, int>, now: int)
    requires k <= |s|
    ensures Tired(s[..k], idleSince, now) <= Tired(s, idleSince, now)
    decreases |s|
  {
    if k == |s| {
      assert s[..k] == s;
    } else {
      TiredPrefix(s[..|s| - 1], k, idleSince, now);
      assert s[..|s| - 1][..k] == s[..k];
    }
  }

  function Without(s: seq<Conn>, c: Conn): seq<Conn> {
    if s == [] then [] else if s[0] == c then s[1..] else [s[0]] + Without(s[1..], c)
  }

  lemma {:induction false} WithoutIs(s: seq<Conn>, c: Conn)
    requires Distinct(s)
    ensures Distinct(Without(s, c)) && Elements(Without(s, c)) == Elements(s) - {c}
  {
    if s != [] {
      WithoutIs(s[1..], c);
      assert s == [s[0]] + s[1..];
      assert Elements(s) == {s[0]} + Elements(s[1..]) && s[0] !in Elements(s[1..]);
      if s[0] != c {
        var rest := Without(s[1..], c);
        assert forall x :: x in rest <==> x in Elements(rest);
        assert Elements([s[0]] + rest) == {s[0]} + Elements(rest);
      }
    }
  }

  lemma RemoveIdle(available: seq<Conn>, idleSince: map<Conn, int>, connections: set<Conn>, leased: set<Conn>, c: Conn)
    requires Partition(available, idleSince, connections, leased) && c in Elements(available)
    ensures Partition(Without(available, c), idleSince - {c}, connections - {c}, leased)
    ensures Elements(Without(available, c)) == Elements(available) - {c}
  {
    WithoutIs(available, c);
  }

  lemma IdleIsFree(available: seq<Conn>, idleSince: map<Conn, int>, connections: set<Conn>, leased: set<Conn>, c: Conn)
    requires Partition(available, idleSince, connections, leased) && c in Elements(available)
    ensures c in connections && c !in leased
  {
  }

  lemma DistinctIdle(available: seq<Conn>, idleSince: map<Conn, int>, connections: set<Conn>, leased: set<Conn>)
    requires Partition(available, idleSince, connections, leased)
    ensures Distinct(available)
  {
  }

  lemma BrokenIsLeased(leases: map<LeaseId, Lease>, leased: set<Conn>, broken: set<Conn>)
    requires Exclusive(leases, leased, broken)
    ensures broken <= leased
  {
  }

  lemma LastOut<T>(s: seq<T>)
    requires |s| > 0 && Distinct(s)
    ensures var rest := s[..|s| - 1];
      Distinct(rest) && s[|s| - 1] !in rest && Elements(rest) == Elements(s) - {s[|s| - 1]}
  {
    var last := s[|s| - 1];
    var rest := s[..|s| - 1];
    assert s == rest + [last];
    forall x ensures x in Elements(rest) <==> x in Elements(s) - {last} {
      assert x in s <==> x in rest || x == last;
    }
  }

  lemma LendLast(available: seq<Conn>, idleSince: map<Conn, int>, connections: set<Conn>, leased: set<Conn>)
    requires Partition(available, idleSince, connections, leased) && |available| > 0
    ensures var c := available[|available| - 1];
      c !in leased && c in connections
        && Partition(available[..|available| - 1], idleSince - {c}, connections, leased + {c})
  {
    LastOut(available);
  }

  lemma LeaseFresh(leases: map<LeaseId, Lease>, leased: set<Conn>, broken: set<Conn>, l: LeaseId, c: Conn)
    requires Exclusive(leases, leased, broken) && l !in leases && c !in leased
    ensures Exclusive(leases[l := Lease(c, Held)], leased + {c}, broken)
  {
  }

  lemma CountOpening(size: nat, connections: set<Conn>, creating: nat, waiters: nat, opening: set<Task>,
                     waiting: set<Task>, t: Task)
    requires Counted(size, connections, creating, waiters, opening, waiting) && t !in opening
    requires |connections| + creating < size
    ensures Counted(size, connections, creating + 1, waiters, opening + {t}, waiting)
  {
  }

  lemma CountWaiting(size: nat, connections: set<Conn>, creating: nat, waiters: nat, opening: set<Task>,
                     waiting: set<Task>, t: Task)
    requires Counted(size, connections, creating, waiters, opening, waiting) && t !in waiting
    ensures Counted(size, connections, creating, waiters + 1, opening, waiting + {t})
  {
  }

  lemma CountWoken(size: nat, connections: set<Conn>, creating: nat, waiters: nat, opening: set<Task>,
                   waiting: set<Task>, t: Task)
    requires Counted(size, connections, creating, waiters, opening, waiting) && t in waiting
    ensures waiters > 0 && Counted(size, connections, creating, waiters - 1, opening, waiting - {t})
  {
  }

  lemma CountOpened(size: nat, connections: set<Conn>, creating: nat, waiters: nat, opening: set<Task>,
                    waiting: set<Task>, t: Task)
    requires Counted(size, connections, creating, waiters, opening, waiting) && t in opening
    ensures creating > 0 && Counted(size, connections, creating - 1, waiters, opening - {t}, waiting)
  {
  }

  lemma CountRegistered(size: nat, connections: set<Conn>, creating: nat, waiters: nat, opening: set<Task>,
                        waiting: set<Task>, t: Task, c: Conn)
    requires Counted(size, connections, creating, waiters, opening, waiting) && t in opening && c !in connections
    ensures creating > 0 && Counted(size, connections + {c}, creating - 1, waiters, opening - {t}, waiting)
  {
  }

  lemma CountFewer(size: nat, connections: set<Conn>, fewer: set<Conn>, creating: nat, waiters: nat,
                   opening: set<Task>, waiting: set<Task>)
    requires Counted(size, connections, creating, waiters, opening, waiting) && fewer <= connections
    ensures Counted(size, fewer, creating, waiters, opening, waiting)
  {
    assert connections == fewer + (connections - fewer);
  }

  lemma RegisterLeased(available: seq<Conn>, idleSince: map<Conn, int>, connections: set<Conn>, leased: set<Conn>,
                       c: Conn)
    requires Partition(available, idleSince, connections, leased) && c !in connections
    ensures Partition(available, idleSince, connections + {c}, leased + {c})
  {
  }

  lemma LeasedAreRegistered(available: seq<Conn>, idleSince: map<Conn, int>, connections: set<Conn>, leased: set<Conn>)
    requires Partition(available, idleSince, connections, leased)
    ensures leased <= connections
  {
  }

  lemma UnregisterLeased(available: seq<Conn>, idleSince: map<Conn, int>, connections: set<Conn>, leased: set<Conn>,
                         c: Conn)
    requires Partition(available, idleSince, connections, leased) && c in leased
    ensures Partition(available, idleSince - {c}, connections - {c}, leased - {c})
  {
  }

  lemma ReturnIdle(available: seq<Conn>, idleSince: map<Conn, int>, connections: set<Conn>, leased: set<Conn>, c: Conn,
                   now: int)
    requires Partition(available, idleSince, connections, leased) && c in leased
    ensures Partition(available + [c], idleSince[c := now], connections, leased - {c})
  {
    assert c !in Elements(available);
    assert Elements(available + [c]) == Elements(available) + {c};
  }

  lemma EmptyIsIdle(available: seq<Conn>, idleSince: map<Conn, int>, connections: set<Conn>, leased: set<Conn>)
    requires Partition(available, idleSince, connections, leased)
    ensures connections == {} ==> available == []
  {
    assert available != [] ==> available[0] in Elements(available);
  }

  lemma NobodyOpens(size: nat, connections: set<Conn>, creating: nat, waiters: nat, opening: set<Task>,
                    waiting: set<Task>)
    requires Counted(size, connections, creating, waiters, opening, waiting)
    ensures creating == 0 ==> opening == {}
  {
  }

  lemma EmptyPartition(leased: set<Conn>)
    requires leased == {}
    ensures Partition([], map[], {}, leased)
  {
  }

  lemma InForceIsLeased(leases: map<LeaseId, Lease>, leased: set<Conn>, broken: set<Conn>, l: LeaseId)
    requires Exclusive(leases, leased, broken) && InForce(leases, l)
    ensures leases[l].connection in leased && (leases[l].stage.Broken? <==> leases[l].connection in broken)
  {
  }

  lemma NotBroken(leases: map<LeaseId, Lease>, leased: set<Conn>, broken: set<Conn>, l: LeaseId)
    requires Exclusive(leases, leased, broken) && InForce(leases, l) && !leases[l].stage.Broken?
    ensures leases[l].connection !in broken && broken - {leases[l].connection} == broken
  {
  }

  lemma NothingBroken(leases: map<LeaseId, Lease>, leased: set<Conn>, broken: set<Conn>)
    requires Exclusive(leases, leased, broken) && leased == {}
    ensures broken == {}
  {
  }

  lemma StageReleasing(leases: map<LeaseId, Lease>, leased: set<Conn>, broken: set<Conn>, l: LeaseId)
    requires Exclusive(leases, leased, broken) && l in leases && leases[l].stage.Held?
    ensures Exclusive(leases[l := leases[l].(stage := Releasing)], leased, broken)
  {
  }

  lemma StageBroken(leases: map<LeaseId, Lease>, leased: set<Conn>, broken: set<Conn>, l: LeaseId)
    requires Exclusive(leases, leased, broken) && l in leases && leases[l].stage.Releasing?
    ensures Exclusive(leases[l := leases[l].(stage := Broken)], leased, broken + {leases[l].connection})
  {
  }

  lemma StageDone(leases: map<LeaseId, Lease>, leased: set<Conn>, broken: set<Conn>, l: LeaseId)
    requires Exclusive(leases, leased, broken) && InForce(leases, l)
    ensures var c := leases[l].connection; Exclusive(leases[l := leases[l].(stage := Done)], leased - {c}, broken - {c})
  {
  }

  lemma NotBorn(born: set<Conn>, connections: set<Conn>, doomed: set<Conn>, broken: set<Conn>,
                closings: multiset<Conn>, c: Conn)
    requires Accounted(born, connections, doomed, broken, closings) && c !in born
    ensures c !in connections && c !in doomed && c !in closings
  {
  }

  lemma BornToServe(born: set<Conn>, connections: set<Conn>, doomed: set<Conn>, broken: set<Conn>,
                    closings: multiset<Conn>, c: Conn)
    requires Accounted(born, connections, doomed, broken, closings) && c !in born
    ensures Accounted(born + {c}, connections + {c}, doomed, broken, closings)
  {
  }

  lemma BornToClose(born: set<Conn>, connections: set<Conn>, doomed: set<Conn>, broken: set<Conn>,
                    closings: multiset<Conn>, c: Conn)
    requires Accounted(born, connections, doomed, broken, closings) && c !in born
    ensures Accounted(born + {c}, connections, doomed + {c}, broken, closings)
  {
  }

  lemma Condemn(born: set<Conn>, connections: set<Conn>, doomed: set<Conn>, broken: set<Conn>,
                closings: multiset<Conn>, out: set<Conn>)
    requires Accounted(born, connections, doomed, broken, closings) && out <= connections && out !! broken
    ensures Accounted(born, connections - out, doomed + out, broken, closings)
  {
  }

  lemma CloseCondemned(born: set<Conn>, connections: set<Conn>, doomed: set<Conn>, broken: set<Conn>,
                       closings: multiset<Conn>, c: Conn)
    requires Accounted(born, connections, doomed, broken, closings) && c in doomed
    ensures c !in closings && Accounted(born, connections, doomed - {c}, broken, closings + multiset{c})
  {
  }

  lemma CloseRegistered(born: set<Conn>, connections: set<Conn>, doomed: set<Conn>, broken: set<Conn>,
                        closings: multiset<Conn>, c: Conn)
    requires Accounted(born, connections, doomed, broken, closings) && c in connections && c !in broken
    ensures c !in closings && Accounted(born, connections, doomed, broken + {c}, closings + multiset{c})
  {
  }

  lemma ForgetBroken(born: set<Conn>, connections: set<Conn>, doomed: set<Conn>, broken: set<Conn>,
                     closings: multiset<Conn>, c: Conn)
    requires Accounted(born, connections, doomed, broken, closings) && c in connections
    requires c in broken
    ensures Accounted(born, connections - {c}, doomed, broken - {c}, closings)
  {
  }
}
