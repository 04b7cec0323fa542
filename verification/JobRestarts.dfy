/**
 What a recovered job risks while it waits in the queue: it does not hold the lock of its database,
 so a short job may write it before the worker has taken the lock again.
 */
module JobRestarts {
  import opened Common
  import opened JobRecord
  import opened JobEngine
  import opened JobEngineInv
  import opened JobEngineTheorems
  import opened JobSteps

  /** Job `j` is next in the queue of an idle worker, at rest since an earlier process, with nothing asked of it. */
  ghost predicate NextInQueue(s: State, j: JobId, key: string) {
    && j in s.jobs && s.jobs[j].resumable && IsPaused(s.jobs[j].status) && LockKey(s.jobs[j]) == key
    && s.worker.Idle? && s.queue != [] && s.queue[0] == j && j !in s.shorts
    && j !in s.requests && s.transition == map[] && j !in s.abandoned
  }

  ghost predicate ShortJob(s: State, k: JobId, key: string, stage: Short) {
    && k in s.jobs && LockKey(s.jobs[k]) == key && k in s.shorts && s.shorts[k] == stage
  }

  // ----- A short job comes first -----

  /** A short job of the same database starts, writes it and ends; then the worker takes `j`. */
  function ShortComesFirst(j: JobId, k: JobId, key: Option<string>, v: Content, t: int): seq<Event> {
    [Outside(Start(k, "short", key, false, false, t)), InShort(ShortAcquire(k, t)), InShort(ShortWrite(k, v)),
     InShort(ShortEnds(k, SimpleDone(None), t)), Fetch, Acquire(t)]
  }

  lemma ShortStarts(s: State, j: JobId, k: JobId, t: int)
    requires j in s.jobs && NextInQueue(s, j, LockKey(s.jobs[j])) && k !in s.jobs
    ensures var e := Outside(Start(k, "short", s.jobs[j].resourceKey, false, false, t));
      && Enabled(s, e)
      && var r := Step(s, e);
         var key := LockKey(s.jobs[j]);
         NextInQueue(r, j, key) && r.jobs[j] == s.jobs[j] && ShortJob(r, k, key, ShortWait) && r.jobs[k].status.Queued?
         && k in r.operations && r.execution == s.execution && r.db == s.db
  {
    StartIs(s, k, "short", s.jobs[j].resourceKey, false, false, t);
  }

  lemma ShortAcquires(s: State, j: JobId, k: JobId, key: string, t: int)
    requires NextInQueue(s, j, key) && ShortJob(s, k, key, ShortWait) && s.jobs[k].status.Queued? && k in s.operations
    requires key !in s.execution && j != k
    ensures var e := InShort(ShortAcquire(k, t));
      && Enabled(s, e)
      && var r := Step(s, e);
         NextInQueue(r, j, key) && r.jobs[j] == s.jobs[j] && ShortJob(r, k, key, ShortRun)
         && r.execution == s.execution[key := k] && r.db == s.db
  {
    hide Apply, LockKey;
    ShortStartIs(s, k, t);
    ApplyMeaning(s.jobs[k], SIMPLE_RUN_PATCH, t);
    SameKey(s.jobs[k], Apply(s.jobs[k], SIMPLE_RUN_PATCH, t));
  }

  lemma SameKey(a: Job, b: Job)
    requires a.resourceKey == b.resourceKey
    ensures LockKey(a) == LockKey(b)
  {
  }

  lemma ShortWritesOver(s: State, j: JobId, k: JobId, key: string, v: Content)
    requires NextInQueue(s, j, key) && ShortJob(s, k, key, ShortRun)
    ensures var e := InShort(ShortWrite(k, v));
      && Enabled(s, e)
      && var r := Step(s, e);
         NextInQueue(r, j, key) && r.jobs == s.jobs && ShortJob(r, k, key, ShortRun)
         && r.execution == s.execution && DbAt(r, key) == v
  {
    hide Apply, LockKey;
    ShortRunsIs(s, k, v, 0.0, "", 0);
  }

  lemma ShortDone(s: State, j: JobId, k: JobId, key: string, t: int)
    requires NextInQueue(s, j, key) && ShortJob(s, k, key, ShortRun) && j != k
    ensures var e := InShort(ShortEnds(k, SimpleDone(None), t));
      && Enabled(s, e)
      && var r := Step(s, e);
         NextInQueue(r, j, key) && r.jobs[j] == s.jobs[j] && r.execution == s.execution - {key} && r.db == s.db
  {
    hide Apply, LockKey;
    ShortEndsIs(s, k, SimpleDone(None), t);
  }

  lemma WorkerTakes(s: State, j: JobId, key: string, t: int)
    requires NextInQueue(s, j, key) && key !in s.execution
    ensures Enabled(s, Fetch) && Enabled(Step(s, Fetch), Acquire(t))
    ensures var r := Step(Step(s, Fetch), Acquire(t));
      && r.worker == AtTop(j) && r.jobs == s.jobs && r.db == s.db && r.requests == s.requests
      && r.transition == s.transition && r.abandoned == s.abandoned
  {
    hide LockKey;
    var r := Step(s, Fetch);
    assert r.worker == Fetched(j) && r.jobs == s.jobs;
    AcquireResumableIs(r, t);
  }

  // ----- The stop that follows -----

  /** A stop of the job the worker has taken up again, carried out. */
  function StopAtOnce(j: JobId, w: Content, t: int): seq<Event> {
    [Outside(Stop(j, t)), Outside(Release(j)), Worker(Top(t)), Worker(MarkStopping(t)), Worker(StopUndo(w)),
     Worker(StopWrite(t))]
  }

  ghost predicate TakenUp(s: State, j: JobId, key: string, w: JobEngine.Worker) {
    && s.worker == w && !w.Idle? && w.id == j && j in s.jobs && s.jobs[j].resumable && LockKey(s.jobs[j]) == key
  }

  lemma StopAccepted(s: State, j: JobId, key: string, t: int)
    requires TakenUp(s, j, key, AtTop(j)) && IsPaused(s.jobs[j].status) && s.transition == map[]
    ensures Enabled(s, Outside(Stop(j, t)))
    ensures var r := Step(s, Outside(Stop(j, t)));
      && Enabled(r, Outside(Release(j)))
      && var u := Step(r, Outside(Release(j)));
         TakenUp(u, j, key, AtTop(j)) && u.jobs[j].status.Stopping? && Requested(u, j, StopRequest)
         && u.transition == map[] && u.db == s.db && u.before == s.before && u.left == s.left
  {
    hide Apply, LockKey;
    StopIs(s, j, t);
    ApplyMeaning(s.jobs[j], STOP_PATCH, t);
    SameKey(s.jobs[j], Apply(s.jobs[j], STOP_PATCH, t));
    var r := Step(s, Outside(Stop(j, t)));
    ReleaseIs(r, j);
  }

  lemma StopReached(s: State, j: JobId, key: string, t: int)
    requires TakenUp(s, j, key, AtTop(j)) && s.jobs[j].status.Stopping? && Requested(s, j, StopRequest)
    requires s.transition == map[]
    ensures Enabled(s, Worker(Top(t))) && Enabled(Step(s, Worker(Top(t))), Worker(MarkStopping(t)))
    ensures var r := Step(Step(s, Worker(Top(t))), Worker(MarkStopping(t)));
      && TakenUp(r, j, key, StopRollback(j)) && r.transition == map[]
      && r.db == s.db && r.before == s.before && r.left == s.left
  {
    hide Apply, LockKey, Do;
    TopIs(s, t);
    BeginIs(s, t, false);
    var r := Step(s, Worker(Top(t)));
    assert r == s.(worker := StopMark(j));
    MarkStoppingIs(r, t);
    ApplyMeaning(s.jobs[j], STOP_PATCH, t);
    SameKey(s.jobs[j], Apply(s.jobs[j], STOP_PATCH, t));
  }

  lemma RolledBackTo(s: State, j: JobId, key: string, w: Content, t: int)
    requires TakenUp(s, j, key, StopRollback(j)) && s.transition == map[]
    requires j in s.left && s.left[j] != DbAt(s, key)
    ensures Enabled(s, Worker(StopUndo(w))) && Enabled(Step(s, Worker(StopUndo(w))), Worker(StopWrite(t)))
    ensures var r := Step(Step(s, Worker(StopUndo(w))), Worker(StopWrite(t)));
      j in r.jobs && r.jobs[j].status.Stopped? && LockKey(r.jobs[j]) == key && DbAt(r, key) == w
  {
    hide Apply, LockKey, Do;
    StopUndoIs(s, w);
    var u := Step(s, Worker(StopUndo(w)));
    assert Undone(s, j, w) == w;
    StopWriteIs(u, t);
    var p := Patched(u.(requests := u.requests - {j}), j, STOPPED_PATCH, t);
    LeaveIs(p, false);
    ApplyMeaning(u.jobs[j], STOPPED_PATCH, t);
    SameKey(u.jobs[j], Apply(u.jobs[j], STOPPED_PATCH, t));
  }

  // ----- Both together -----

  lemma TwoMore(s: State, a: Event, b: Event)
    requires Enabled(s, a) && Enabled(Step(s, a), b)
    ensures Possible(s, [a, b]) && Run(s, [a, b]) == Step(Step(s, a), b)
  {
    hide Step, Enabled;
    OneEvent(Step(s, a), b);
    RunCons(s, a, [b]);
    assert [a] + [b] == [a, b];
  }

  lemma ShortComes(s: State, j: JobId, k: JobId, v: Content, t: int)
    requires j in s.jobs && NextInQueue(s, j, LockKey(s.jobs[j])) && s.execution == map[] && k !in s.jobs
    ensures var es := ShortComesFirst(j, k, s.jobs[j].resourceKey, v, t);
      && Possible(s, es)
      && var r := Run(s, es);
         var key := LockKey(s.jobs[j]);
         TakenUp(r, j, key, AtTop(j)) && r.jobs[j] == s.jobs[j] && DbAt(r, key) == v && r.transition == map[]
  {
    hide Step, Enabled, LockKey, Run, Possible;
    var key, name := LockKey(s.jobs[j]), s.jobs[j].resourceKey;
    var a, b := Outside(Start(k, "short", name, false, false, t)), InShort(ShortAcquire(k, t));
    var c, d := InShort(ShortWrite(k, v)), InShort(ShortEnds(k, SimpleDone(None), t));
    ShortStarts(s, j, k, t);
    var s1 := Step(s, a);
    ShortAcquires(s1, j, k, key, t);
    var s2 := Step(s1, b);
    ShortWritesOver(s2, j, k, key, v);
    var s3 := Step(s2, c);
    ShortDone(s3, j, k, key, t);
    var s4 := Step(s3, d);
    WorkerTakes(s4, j, key, t);
    TwoMore(s, a, b);
    TwoMore(s2, c, d);
    TwoMore(s4, Fetch, Acquire(t));
    RunThen(s2, [c, d], [Fetch, Acquire(t)]);
    RunThen(s, [a, b], [c, d] + [Fetch, Acquire(t)]);
    assert ShortComesFirst(j, k, name, v, t) == [a, b] + ([c, d] + [Fetch, Acquire(t)]);
    SameDb(s4, Step(Step(s4, Fetch), Acquire(t)));
    SameDb(s3, s4);
  }

  lemma StopFollows(s: State, j: JobId, key: string, w: Content, t: int)
    requires TakenUp(s, j, key, AtTop(j)) && IsPaused(s.jobs[j].status) && s.transition == map[]
    requires j in s.left && s.left[j] != DbAt(s, key)
    ensures var es := StopAtOnce(j, w, t);
      Possible(s, es) && j in Run(s, es).jobs && EndedByRollback(Run(s, es).jobs[j]) && DbAt(Run(s, es), key) == w
  {
    hide Step, Enabled, LockKey, Run, Possible, Requested;
    var a, b, c, d := Outside(Stop(j, t)), Outside(Release(j)), Worker(Top(t)), Worker(MarkStopping(t));
    var e, f := Worker(StopUndo(w)), Worker(StopWrite(t));
    StopAccepted(s, j, key, t);
    var s1 := Step(Step(s, a), b);
    StopReached(s1, j, key, t);
    var s2 := Step(Step(s1, c), d);
    SameDb(s, s2);
    RolledBackTo(s2, j, key, w, t);
    TwoMore(s, a, b);
    TwoMore(s1, c, d);
    TwoMore(s2, e, f);
    RunThen(s1, [c, d], [e, f]);
    RunThen(s, [a, b], [c, d] + [e, f]);
    assert StopAtOnce(j, w, t) == [a, b] + ([c, d] + [e, f]);
  }

  /**
   The condition of `RollbackRestoresEarlierRun` is needed. From any start with a recovered job first in
   the queue: a short job writes its database, the worker takes the job, and a stop is carried out.
   Whatever the database held before the job's first run, the rollback may leave anything else.
   */
  lemma ForeignWriteBreaksARollback(s0: State, j: JobId, k: JobId, v: Content, start: Content, w: Content, t: int)
    requires Init(s0) && s0.queue != [] && s0.queue[0] == j && k !in s0.jobs
    requires v != DbAt(s0, LockKey(s0.jobs[j]))
    ensures var es := ShortComesFirst(j, k, s0.jobs[j].resourceKey, v, t);
      && Possible(s0, es)
      && var s1 := Run(s0, es);
         var key := LockKey(s0.jobs[j]);
         s1.worker == AtTop(j) && j in s1.jobs && LockKey(s1.jobs[j]) == key
         && s1.jobs[j].attempts == s0.jobs[j].attempts
         && var known := Knowing(s1, j, start, DbAt(s0, key));
            var stop := StopAtOnce(j, w, t);
            Possible(known, stop) && j in Run(known, stop).jobs && EndedByRollback(Run(known, stop).jobs[j])
            && DbAt(Run(known, stop), key) == w
  {
    hide Step, Enabled, LockKey, Run, Possible, EndedByRollback, DbAt;
    var key := LockKey(s0.jobs[j]);
    AtRest(s0, j);
    ShortComes(s0, j, k, v, t);
    var s1 := Run(s0, ShortComesFirst(j, k, s0.jobs[j].resourceKey, v, t));
    var known := Knowing(s1, j, start, DbAt(s0, key));
    SameDb(s1, known);
    StopFollows(known, j, key, w, t);
  }

  lemma AtRest(s: State, j: JobId)
    requires Init(s) && s.queue != [] && s.queue[0] == j
    ensures j in s.jobs && NextInQueue(s, j, LockKey(s.jobs[j])) && s.execution == map[]
  {
    hide LockKey, HistoryInv;
    assert RecordInv(s.jobs[j]);
  }
}
