/** What every run of the job engine guarantees, and exactly where a guarantee ends. */
module JobEngineTheorems {
  import opened Common
  import opened JobRecord
  import opened JobEngine
  import opened JobEngineInv

  ghost predicate Reachable(s0: State, es: seq<Event>, s: State) {
    Init(s0) && Possible(s0, es) && s == Run(s0, es)
  }

  lemma ReachableInv(s0: State, es: seq<Event>, s: State)
    requires Reachable(s0, es, s)
    ensures Inv(s)
  {
    hide Inv;
    InitInv(s0);
    RunKeepsInv(s0, es);
  }

  // ----- One event and one job -----

  /** The worker's event `e` concerns job `j`. */
  predicate ByWorkerOn(s: State, e: Event, j: JobId) {
    e.Worker? && !s.worker.Idle? && s.worker.id == j
  }

  /** The call `e` writes job `j`. */
  predicate ByCallOn(e: Event, j: JobId) {
    e.Outside? && (e.call.Pause? || e.call.Resume? || e.call.Stop? || e.call.Cancel? || e.call.Shutdown?)
      && e.call.id == j
  }

  function Identity(p: Patch): Write { Write(p, 0) }

  /** The `_update` an event makes on job `j`; one that names no field when it makes none. */
  function WriteOn(s: State, e: Event, j: JobId): Write
    requires Enabled(s, e)
  {
    match e
    case Outside(c) =>
      if ByCallOn(e, j) then
        Write(if c.Pause? then PAUSE_PATCH
              else if c.Resume? then RESUME_PATCH
              else if c.Stop? then STOP_PATCH
              else if c.Shutdown? then SHUTDOWN_PATCH
              else CancelPatch(c.why), c.now)
      else Identity(NOTHING)
    case Fetch => Identity(NOTHING)
    case Acquire(now) =>
      if s.worker.id == j then Write(AcquireShift(s, now).patch, AcquireShift(s, now).now) else Identity(NOTHING)
    case Worker(a) => if s.worker.id == j then Write(MoveOf(s, a).patch, MoveOf(s, a).now) else Identity(NOTHING)
    case InShort(b) => if b.id == j then Write(BriefShift(s, b).patch, BriefShift(s, b).now) else Identity(NOTHING)
  }

  lemma DoJob(s: State, m: Move, j: JobId)
    requires !s.worker.Idle? && s.worker.id in s.jobs && j in s.jobs
    ensures j in Do(s, m).jobs
    ensures Do(s, m).jobs[j] == if j == s.worker.id then Apply(s.jobs[j], m.patch, m.now) else s.jobs[j]
  {
    hide Apply;
  }

  lemma ShiftJob(s: State, x: Shift, k: JobId, j: JobId)
    requires k in s.jobs && j in s.jobs
    ensures j in Shifted(s, k, x).jobs
    ensures Shifted(s, k, x).jobs[j] == if j == k then Apply(s.jobs[j], x.patch, x.now) else s.jobs[j]
  {
    hide Apply;
  }

  lemma NothingApplied(job: Job, now: int)
    ensures Apply(job, NOTHING, now) == job
  {
  }

  lemma AskedJob(s: State, c: Call, j: JobId)
    requires CanCall(s, c) && j in s.jobs && (c.Pause? || c.Resume? || c.Stop?)
    ensures j in AfterCall(s, c).jobs
    ensures var w := WriteOn(s, Outside(c), j); AfterCall(s, c).jobs[j] == Apply(s.jobs[j], w.patch, w.now)
  {
    hide Apply, MoveOf, AcquireShift, BriefShift;
    NothingApplied(s.jobs[j], 0);
  }

  lemma OtherCallJob(s: State, c: Call, j: JobId)
    requires CanCall(s, c) && j in s.jobs && !c.Pause? && !c.Resume? && !c.Stop?
    ensures j in AfterCall(s, c).jobs
    ensures var w := WriteOn(s, Outside(c), j); AfterCall(s, c).jobs[j] == Apply(s.jobs[j], w.patch, w.now)
  {
    hide Apply, MoveOf, AcquireShift, BriefShift, NewJob;
    NothingApplied(s.jobs[j], 0);
  }

  lemma CallJob(s: State, c: Call, j: JobId)
    requires CanCall(s, c) && j in s.jobs
    ensures j in AfterCall(s, c).jobs
    ensures var w := WriteOn(s, Outside(c), j); AfterCall(s, c).jobs[j] == Apply(s.jobs[j], w.patch, w.now)
  {
    hide Apply, AfterCall, WriteOn, CanCall;
    if c.Pause? || c.Resume? || c.Stop? {
      AskedJob(s, c, j);
    } else {
      OtherCallJob(s, c, j);
    }
  }

  /** Every event makes at most one `_update` on a job that exists, and no job disappears. */
  lemma OneUpdate(s: State, e: Event, j: JobId)
    requires Enabled(s, e) && j in s.jobs
    ensures j in Step(s, e).jobs
    ensures var w := WriteOn(s, e, j); Step(s, e).jobs[j] == Apply(s.jobs[j], w.patch, w.now)
  {
    hide Apply, Do, MoveOf, AfterCall, Shifted, AcquireShift, BriefShift;
    NothingApplied(s.jobs[j], 0);
    match e
    case Outside(c) => CallJob(s, c, j);
    case Fetch =>
    case Acquire(now) => ShiftJob(s, AcquireShift(s, now), s.worker.id, j);
    case Worker(a) => DoJob(s, MoveOf(s, a), j);
    case InShort(b) => ShiftJob(s, BriefShift(s, b), b.id, j);
  }

  lemma CallAllowed(s: State, c: Call, j: JobId)
    requires Inv(s) && CanCall(s, c) && j in s.jobs
    ensures Allowed(s.jobs[j], WriteOn(s, Outside(c), j).patch)
  {
    hide Inv, Fits, AfterCall;
    if ByCallOn(Outside(c), j) {
      DropKeepsInv(s, j);
      SoundCall(s, c);
      if c.Cancel? {
        SoundCall(s.(operations := s.operations - {j}), c);
      }
    }
  }

  lemma WriteAllowed(s: State, e: Event, j: JobId)
    requires Inv(s) && Enabled(s, e) && j in s.jobs
    ensures Allowed(s.jobs[j], WriteOn(s, e, j).patch)
  {
    hide Records, Domains, Operations, Remembered, Queueing, Locking, Transitions, Statuses, Served, Requests,
         DataInv, StartOrder;
    hide Allowed, MoveOf, BriefShift, AcquireShift, Fits;
    assert Allowed(s.jobs[j], NOTHING) by { NothingAllowed(s.jobs[j]); }
    match e
    case Outside(c) => CallAllowed(s, c, j);
    case Fetch =>
    case Acquire(now) => AcquireIsSound(s, now);
    case Worker(a) =>
      LocalFacts(s);
      MovesAreSound(s, a);
    case InShort(b) => BriefsAreSound(s, b);
  }

  lemma NothingAllowed(job: Job)
    ensures Allowed(job, NOTHING)
  {
  }

  // ----- Records, attempts and terminal statuses over every run -----

  /** In every reachable state every job satisfies the record invariant. */
  lemma ReachableRecords(s0: State, es: seq<Event>, s: State, j: JobId)
    requires Reachable(s0, es, s) && j in s.jobs
    ensures RecordInv(s.jobs[j])
  {
    hide RecordInv;
    ReachableInv(s0, es, s);
  }

  /** How often job `j` enters an execution along the run. */
  ghost function Entries(s: State, es: seq<Event>, j: JobId): nat
    requires Possible(s, es)
    decreases |es|
  {
    if es == [] then 0
    else
      var r := Step(s, es[0]);
      (if j in s.jobs && j in r.jobs && EntersExecution(s.jobs[j].status, r.jobs[j].status) then 1 else 0)
      + Entries(r, es[1..], j)
  }

  /** `attempt_count` grows by exactly the number of executions entered, along any interleaving. */
  lemma {:induction false} AttemptsAreEntries(s: State, es: seq<Event>, j: JobId)
    requires Possible(s, es) && j in s.jobs
    ensures j in Run(s, es).jobs
    ensures Run(s, es).jobs[j].attempts == s.jobs[j].attempts + Entries(s, es, j)
    decreases |es|
  {
    hide Step, Apply, WriteOn, Enabled;
    if es != [] {
      var w := WriteOn(s, es[0], j);
      OneUpdate(s, es[0], j);
      ApplyMeaning(s.jobs[j], w.patch, w.now);
      AttemptsAreEntries(Step(s, es[0]), es[1..], j);
    }
  }

  lemma TerminalStep(s: State, e: Event, j: JobId)
    requires Inv(s) && Enabled(s, e) && j in s.jobs && IsTerminal(s.jobs[j].status)
    ensures j in Step(s, e).jobs && Step(s, e).jobs[j].status == s.jobs[j].status
  {
    hide Inv, Step, Apply, WriteOn, Enabled;
    var w := WriteOn(s, e, j);
    OneUpdate(s, e, j);
    WriteAllowed(s, e, j);
    ApplyMeaning(s.jobs[j], w.patch, w.now);
  }

  /** No call, worker step or short task ever changes a terminal status. */
  lemma {:induction false} TerminalForever(s: State, es: seq<Event>, j: JobId)
    requires Inv(s) && Possible(s, es) && j in s.jobs && IsTerminal(s.jobs[j].status)
    ensures j in Run(s, es).jobs && Run(s, es).jobs[j].status == s.jobs[j].status
    decreases |es|
  {
    hide Inv, Step, Enabled;
    if es != [] {
      TerminalStep(s, es[0], j);
      StepKeepsInv(s, es[0]);
      TerminalForever(Step(s, es[0]), es[1..], j);
    }
  }

  // ----- Exclusion and order -----

  /** Two jobs that execute under the same resource key are the same job, across both lanes. */
  lemma OneJobPerKey(s0: State, es: seq<Event>, s: State, i: JobId, j: JobId)
    requires Reachable(s0, es, s)
    requires i in s.jobs && j in s.jobs && Executes(s, i) && Executes(s, j)
    requires LockKey(s.jobs[i]) == LockKey(s.jobs[j])
    ensures i == j
  {
    hide LockKey, Holds;
    ReachableInv(s0, es, s);
  }

  /**
   Long jobs start in the order in which they were enqueued, and once one has started every
   job enqueued before it is finished for good or has been abandoned: a paused or interrupted
   job keeps all later ones waiting.
   */
  lemma LongJobsInOrder(s0: State, es: seq<Event>, s: State, p: nat, q: nat)
    requires Reachable(s0, es, s) && p < q < |s.enqueued| && q in s.starts
    ensures s.enqueued[p] in s.jobs
    ensures IsTerminal(s.jobs[s.enqueued[p]].status) || s.enqueued[p] in s.abandoned
    ensures forall i, k :: 0 <= i <= k < |s.starts| ==> s.starts[i] <= s.starts[k]
  {
    hide Records, Domains, Operations, Remembered, Locking, Transitions, Statuses, Requests, DataInv;
    ReachableInv(s0, es, s);
    assert p < s.served;
    assert s.enqueued[p] != s.enqueued[s.served - 1];
  }

  /** No job is lost: every unfinished one is abandoned, waits in the queue or a task, or is with the worker. */
  lemma NoJobIsLost(s0: State, es: seq<Event>, s: State, j: JobId)
    requires Reachable(s0, es, s) && j in s.jobs && !IsTerminal(s.jobs[j].status)
    ensures s.served <= |s.enqueued| && s.queue == s.enqueued[s.served..]
    ensures j in s.abandoned || j in s.queue || j in s.shorts || Current(s.worker) == Some(j)
  {
    hide Records, Domains, Operations, Remembered, Locking, Transitions, Statuses, Requests, DataInv;
    ReachableInv(s0, es, s);
  }

  // ----- A stopped or failed job leaves its database as it found it -----

  /** The job ended by a stop, or failed by its own operation. */
  predicate EndedByRollback(job: Job) {
    job.status.Stopped? || (job.status.Failed? && job.reason == OPERATION_FAILED)
  }

  /** How the status of a job that can be resumed reaches a rollback ending: the worker writes it after a rollback. */
  lemma RollbackEnding(s: State, e: Event, j: JobId)
    requires Inv(s) && Enabled(s, e) && j in s.jobs && s.jobs[j].resumable && !IsTerminal(s.jobs[j].status)
    requires j in Step(s, e).jobs && EndedByRollback(Step(s, e).jobs[j])
    ensures ByWorkerOn(s, e, j) && (s.worker.StopUndone? || s.worker.FailUndone?)
    ensures Step(s, e).db == s.db
  {
    hide Records, Remembered, Queueing, Locking, Transitions, Served, Requests, DataInv, StartOrder;
    hide Apply, Do, AfterCall, Shifted, MoveOf;
    var w := WriteOn(s, e, j);
    OneUpdate(s, e, j);
    ApplyMeaning(s.jobs[j], w.patch, w.now);
    if e.Acquire? {
      EnteringResumable(s, e.now, j);
    }
    if e.Worker? && s.worker.id == j {
      EndingMove(s, e.action, j);
    }
  }

  lemma EnteringResumable(s: State, now: int, j: JobId)
    requires CanAcquire(s) && j in s.jobs && s.jobs[j].resumable
    ensures WriteOn(s, Acquire(now), j).patch == NOTHING
  {
  }

  lemma EndingAction(s: State, a: Action, j: JobId)
    requires CanAct(s, a) && s.worker.id == j && s.jobs[j].resumable && (s.worker.InSimple? ==> !s.jobs[j].resumable)
    requires var p := MoveOf(s, a).patch;
      (p.status == Put(Stopped) || (p.status == Put(Failed) && Value(p.reason, s.jobs[j].reason) == OPERATION_FAILED))
    ensures a.StopWrite? || a.FailWrite?
  {
    hide LockKey, Undone, Signalled;
    assert "manager_error" != OPERATION_FAILED;
  }

  lemma EndingMove(s: State, a: Action, j: JobId)
    requires CanAct(s, a) && s.worker.id == j && s.jobs[j].resumable && (s.worker.InSimple? ==> !s.jobs[j].resumable)
    requires var p := MoveOf(s, a).patch;
      (p.status == Put(Stopped) || (p.status == Put(Failed) && Value(p.reason, s.jobs[j].reason) == OPERATION_FAILED))
    ensures (s.worker.StopUndone? || s.worker.FailUndone?) && Do(s, MoveOf(s, a)).db == s.db
  {
    EndingAction(s, a, j);
    hide Apply, LockKey, DbAt;
  }

  lemma FixedFields(s: State, e: Event, j: JobId)
    requires Enabled(s, e) && j in s.jobs
    ensures j in Step(s, e).jobs && Step(s, e).jobs[j].resumable == s.jobs[j].resumable
    ensures LockKey(Step(s, e).jobs[j]) == LockKey(s.jobs[j])
  {
    hide Step, Apply, WriteOn, Enabled;
    var w := WriteOn(s, e, j);
    OneUpdate(s, e, j);
    ApplyMeaning(s.jobs[j], w.patch, w.now);
  }

  /** A call from outside moves neither the worker nor any database. */
  lemma CallFrame(s: State, c: Call)
    requires CanCall(s, c)
    ensures var r := AfterCall(s, c);
      && r.worker == s.worker && r.before == s.before && r.left == s.left && r.db == s.db
      && r.abandoned == s.abandoned && r.starts == s.starts && r.served == s.served
  {
    hide Apply, NewJob;
  }

  /** What the database held before a job's first run is remembered, and never changed afterwards. */
  lemma BeforeIsKept(s: State, e: Event, j: JobId)
    requires Remembered(s) && Enabled(s, e) && j in s.before
    ensures j in Step(s, e).before && Step(s, e).before[j] == s.before[j]
  {
    hide Apply, MoveOf, Do, RecordInv, AfterCall, Shifted, AcquireShift, BriefShift;
    match e
    case Outside(c) => CallFrame(s, c);
    case Fetch =>
    case Acquire(now) => ShiftFrame(s, s.worker.id, AcquireShift(s, now));
    case Worker(a) => DoHistory(s, MoveOf(s, a));
    case InShort(b) => ShiftFrame(s, b.id, BriefShift(s, b));
  }

  /** A resumable job's first execution is begun by the worker, and the database it finds is remembered. */
  lemma FirstRun(s: State, e: Event, j: JobId)
    requires Inv(s) && Enabled(s, e) && j in s.jobs && s.jobs[j].resumable && s.jobs[j].attempts == 0
    requires j in Step(s, e).jobs && Step(s, e).jobs[j].attempts > 0
    ensures ByWorkerOn(s, e, j) && j in Step(s, e).before
    ensures Step(s, e).before[j] == DbAt(s, LockKey(s.jobs[j]))
  {
    hide Records, Domains, Operations, Remembered, Queueing, Locking, Transitions, Statuses, Served, Requests;
    hide DataInv, StartOrder, Apply, MoveOf, Do, RecordInv;
    EntryIsAWrite(s, e, j);
    if e.Acquire? {
      EnteringResumable(s, e.now, j);
    }
    RunsLive(s, j);
    if e.Worker? && s.worker.id == j {
      BeginningMove(s, e.action, j);
      DoHistory(s, MoveOf(s, e.action));
    }
  }

  /** A job that gets its first attempt is written `running` out of a status at rest. */
  lemma EntryIsAWrite(s: State, e: Event, j: JobId)
    requires Inv(s) && Enabled(s, e) && j in s.jobs && s.jobs[j].resumable && s.jobs[j].attempts == 0
    requires j in Step(s, e).jobs && Step(s, e).jobs[j].attempts > 0
    ensures WriteOn(s, e, j).patch.status == Put(Running) && (s.jobs[j].status.Queued? || IsPaused(s.jobs[j].status))
    ensures !e.InShort? || e.brief.id != j
  {
    hide Records, Operations, Remembered, Queueing, Locking, Transitions, Statuses, Served, Requests, DataInv,
         StartOrder;
    hide Apply, WriteOn, RecordInv, Step;
    var w := WriteOn(s, e, j);
    OneUpdate(s, e, j);
    ApplyMeaning(s.jobs[j], w.patch, w.now);
  }

  lemma RunsLive(s: State, j: JobId)
    requires Inv(s) && j in s.jobs
    ensures Domains(s) && (s.worker.InRun? && s.worker.id == j ==> Live(s.jobs[j].status))
  {
    hide Records, Operations, Remembered, Queueing, Locking, Transitions, Served, Requests, DataInv, StartOrder;
  }

  lemma BeginningMove(s: State, a: Action, j: JobId)
    requires Domains(s) && CanAct(s, a) && s.worker.id == j && s.jobs[j].resumable
    requires MoveOf(s, a).patch.status == Put(Running) && (s.jobs[j].status.Queued? || IsPaused(s.jobs[j].status))
    requires s.worker.InRun? ==> Live(s.jobs[j].status)
    ensures MoveOf(s, a).begin
  {
  }

  lemma AbandonedStays(s: State, e: Event, j: JobId)
    requires Enabled(s, e) && j in s.abandoned
    ensures j in Step(s, e).abandoned
  {
    hide Apply, MoveOf, Do, RecordInv, AfterCall, Shifted, AcquireShift, BriefShift;
    match e
    case Outside(c) => CallFrame(s, c);
    case Fetch =>
    case Acquire(now) => ShiftFrame(s, s.worker.id, AcquireShift(s, now));
    case Worker(a) => DoFrame(s, MoveOf(s, a));
    case InShort(b) => ShiftFrame(s, b.id, BriefShift(s, b));
  }

  /** What is remembered of a job, and its key, over a whole run. */
  lemma {:induction false} RememberedForever(s: State, es: seq<Event>, j: JobId)
    requires Inv(s) && Possible(s, es) && j in s.before
    ensures j in s.jobs && j in Run(s, es).before && Run(s, es).before[j] == s.before[j]
    ensures j in Run(s, es).jobs && LockKey(Run(s, es).jobs[j]) == LockKey(s.jobs[j]) && Run(s, es).jobs[j].resumable
    decreases |es|
  {
    hide Step, Enabled, LockKey, Records, Domains, Operations, Queueing, Locking, Transitions, Statuses, Served,
         Requests;
    if es != [] {
      BeforeIsKept(s, es[0], j);
      FixedFields(s, es[0], j);
      StepKeepsInv(s, es[0]);
      RememberedForever(Step(s, es[0]), es[1..], j);
    }
  }

  /** An abandoned job stays abandoned and unfinished in every later state: nothing ever rolls it back. */
  lemma {:induction false} AbandonedForever(s: State, es: seq<Event>, j: JobId)
    requires Inv(s) && Possible(s, es) && j in s.abandoned
    ensures j in Run(s, es).abandoned && j in Run(s, es).jobs
    ensures IsPaused(Run(s, es).jobs[j].status) || Run(s, es).jobs[j].status.Stopping?
    decreases |es|
  {
    hide Step, Enabled, Records, Domains, Operations, Remembered, Queueing, Locking, Transitions, Statuses, Requests,
         DataInv;
    if es != [] {
      AbandonedStays(s, es[0], j);
      StepKeepsInv(s, es[0]);
      AbandonedForever(Step(s, es[0]), es[1..], j);
    }
  }

  /**
   From its first run on, a job that will ever finish holds the execution lock of its database
   in every state before it finishes: through every pause and interruption.
   */
  lemma LockHeldUntilTheEnd(s: State, es: seq<Event>, j: JobId)
    requires Inv(s) && Possible(s, es) && j in s.before && j in s.jobs && !IsTerminal(s.jobs[j].status)
    requires j in Run(s, es).jobs && IsTerminal(Run(s, es).jobs[j].status)
    ensures LockKey(s.jobs[j]) in s.execution && s.execution[LockKey(s.jobs[j])] == j
    ensures Holds(s.worker, j) && j in s.left && DbAt(s, LockKey(s.jobs[j])) == s.left[j]
  {
    hide Records, Operations, Queueing, Transitions, Statuses, Requests, Run, LockKey, Holds, DbAt;
    if j in s.abandoned {
      AbandonedForever(s, es, j);
    }
  }

  /**
   The main property of a rollback. Take any run in which job `j` begins its first execution
   with event `b` and is later ended by a stop or by the failure of its operation with event
   `e`, with everything else interleaved in any way. Then its database is at the end as it was
   when the job first ran.
   */
  lemma RollbackRestoresFirstRun(s0: State, es: seq<Event>, s1: State, b: Event, es': seq<Event>, s2: State, e: Event,
                                 j: JobId)
    requires Reachable(s0, es, s1) && Enabled(s1, b)
    requires j in s1.jobs && s1.jobs[j].resumable && s1.jobs[j].attempts == 0
    requires j in Step(s1, b).jobs && Step(s1, b).jobs[j].attempts > 0
    requires Possible(Step(s1, b), es') && s2 == Run(Step(s1, b), es') && Enabled(s2, e)
    requires j in s2.jobs && !IsTerminal(s2.jobs[j].status)
    requires j in Step(s2, e).jobs && EndedByRollback(Step(s2, e).jobs[j])
    ensures DbAt(Step(s2, e), LockKey(Step(s2, e).jobs[j])) == DbAt(s1, LockKey(s1.jobs[j]))
  {
    hide Records, Domains, Operations, Remembered, Queueing, Locking, Transitions, Statuses, Served, Requests,
         StartOrder;
    hide Run, Step, Enabled, LockKey, Init;
    ReachableInv(s0, es, s1);
    FirstRun(s1, b, j);
    FixedFields(s1, b, j);
    StepKeepsInv(s1, b);
    RememberedForever(Step(s1, b), es', j);
    RunKeepsInv(Step(s1, b), es');
    RollbackEnding(s2, e, j);
    FixedFields(s2, e, j);
    RestoredBeforeEnding(s2, j);
  }

  /** The event writes to the database under `key`. */
  predicate WritesTo(s: State, e: Event, key: string)
    requires Enabled(s, e)
  {
    match e
    case Worker(a) => MoveOf(s, a).content.Some? && LockKey(s.jobs[s.worker.id]) == key
    case InShort(b) => BriefShift(s, b).content.Some? && LockKey(s.jobs[b.id]) == key
    case _ => false
  }

  ghost predicate Unwritten(s: State, es: seq<Event>, key: string)
    requires Possible(s, es)
    decreases |es|
  {
    es == [] || (!WritesTo(s, es[0], key) && Unwritten(Step(s, es[0]), es[1..], key))
  }

  lemma UnwrittenStep(s: State, e: Event, key: string)
    requires Enabled(s, e) && !WritesTo(s, e, key)
    ensures DbAt(Step(s, e), key) == DbAt(s, key)
  {
    hide Apply, MoveOf, Do, AfterCall, Shifted, BriefShift, LockKey;
    match e
    case Outside(c) => CallFrame(s, c);
    case Fetch =>
    case Acquire(now) => ShiftFrame(s, s.worker.id, AcquireShift(s, now));
    case Worker(a) => DoHistory(s, MoveOf(s, a));
    case InShort(b) => ShiftFrame(s, b.id, BriefShift(s, b));
  }

  lemma {:induction false} UnwrittenRun(s: State, es: seq<Event>, key: string)
    requires Possible(s, es) && Unwritten(s, es, key)
    ensures DbAt(Run(s, es), key) == DbAt(s, key)
    decreases |es|
  {
    hide Step, Enabled, WritesTo, DbAt;
    if es != [] {
      UnwrittenStep(s, es[0], key);
      UnwrittenRun(Step(s, es[0]), es[1..], key);
    }
  }

  /**
   A state together with what is known of a job from an earlier process: its database before its
   first run, and as it left it.
   */
  function Knowing(s: State, j: JobId, start: Content, asLeft: Content): State {
    s.(before := s.before[j := start], left := s.left[j := asLeft])
  }

  lemma KnowingKeepsInv(s: State, j: JobId, start: Content, asLeft: Content)
    requires Inv(s) && s.worker == AtTop(j) && s.jobs[j].attempts > 0 && DbAt(s, LockKey(s.jobs[j])) == asLeft
    ensures Inv(Knowing(s, j, start, asLeft))
  {
    hide Records, Domains, Operations, Remembered, Queueing, Locking, Transitions, Statuses, Served, Requests,
         DataInv, StartOrder;
    hide Knowing, RecordInv, LockKey, DbAt;
    KnowingSame(s, j, start, asLeft);
    KnowingProgress(s, j, start, asLeft);
    KnowingRemembers(s, j, start, asLeft);
  }

  lemma KnowingSame(s: State, j: JobId, start: Content, asLeft: Content)
    requires Records(s) && Domains(s) && Operations(s) && Queueing(s) && Locking(s) && Transitions(s)
    ensures var r := Knowing(s, j, start, asLeft);
      Records(r) && Domains(r) && Operations(r) && Queueing(r) && Locking(r) && Transitions(r)
  {
    hide RecordInv, LockKey, Holds;
  }

  lemma KnowingProgress(s: State, j: JobId, start: Content, asLeft: Content)
    requires Statuses(s) && Served(s) && Requests(s) && StartOrder(s)
    ensures var r := Knowing(s, j, start, asLeft); Statuses(r) && Served(r) && Requests(r) && StartOrder(r)
  {
    hide RecordInv, LockKey, Holds, Fits;
    var r := Knowing(s, j, start, asLeft);
    forall k | k in r.jobs ensures RequestFits(r, k) {
      assert RequestFits(s, k);
    }
  }

  lemma KnowingRemembers(s: State, j: JobId, start: Content, asLeft: Content)
    requires Domains(s) && Remembered(s) && DataInv(s)
    requires s.worker == AtTop(j) && s.jobs[j].attempts > 0 && DbAt(s, LockKey(s.jobs[j])) == asLeft
    ensures var r := Knowing(s, j, start, asLeft); Remembered(r) && DataInv(r)
  {
    hide LockKey;
  }

  /**
   The same for a job that first ran in an earlier process. It waits in the queue without its lock;
   if no other job writes its database until the worker has taken the lock again, then a stop or
   a failure of its operation still leaves the database as it was before that first run.
   */
  lemma RollbackRestoresEarlierRun(s0: State, es: seq<Event>, s1: State, j: JobId, start: Content, es': seq<Event>,
                                   s2: State, e: Event)
    requires Reachable(s0, es, s1) && s1.worker == AtTop(j) && j in s1.jobs && s1.jobs[j].attempts > 0
    requires Unwritten(s0, es, LockKey(s1.jobs[j]))
    requires var known := Knowing(s1, j, start, DbAt(s0, LockKey(s1.jobs[j])));
      Possible(known, es') && s2 == Run(known, es') && Enabled(s2, e)
    requires j in s2.jobs && !IsTerminal(s2.jobs[j].status)
    requires j in Step(s2, e).jobs && EndedByRollback(Step(s2, e).jobs[j])
    ensures DbAt(Step(s2, e), LockKey(s1.jobs[j])) == start
  {
    hide Records, Domains, Operations, Remembered, Queueing, Locking, Transitions, Statuses, Served, Requests,
         StartOrder;
    hide Run, Step, Enabled, LockKey, Init, DataInv, Unwritten, DbAt;
    var asLeft := DbAt(s0, LockKey(s1.jobs[j]));
    var known := Knowing(s1, j, start, asLeft);
    ReachableInv(s0, es, s1);
    UnwrittenRun(s0, es, LockKey(s1.jobs[j]));
    KnowingKeepsInv(s1, j, start, asLeft);
    RememberedForever(known, es', j);
    RunKeepsInv(known, es');
    RollbackEnding(s2, e, j);
    FixedFields(s2, e, j);
    RestoredBeforeEnding(s2, j);
    SameDb(s2, Step(s2, e));
  }

  lemma SameDb(s: State, r: State)
    requires r.db == s.db
    ensures forall key :: DbAt(r, key) == DbAt(s, key)
  {
  }

  lemma RestoredBeforeEnding(s: State, j: JobId)
    requires Inv(s) && j in s.before && j in s.jobs && !IsTerminal(s.jobs[j].status)
    requires (s.worker.StopUndone? || s.worker.FailUndone?) && s.worker.id == j
    ensures DbAt(s, LockKey(s.jobs[j])) == s.before[j]
  {
    hide Records, Operations, Queueing, Locking, Transitions, Statuses, Requests, StartOrder, LockKey, DbAt;
  }

  // ----- Positions in a run -----

  lemma {:induction false} RunThen(s: State, es: seq<Event>, more: seq<Event>)
    requires Possible(s, es) && Possible(Run(s, es), more)
    ensures Possible(s, es + more) && Run(s, es + more) == Run(Run(s, es), more)
    decreases |es|
  {
    hide Step, Enabled;
    if es == [] {
      assert es + more == more;
    } else {
      RunThen(Step(s, es[0]), es[1..], more);
      assert (es + more)[1..] == es[1..] + more;
    }
  }

  lemma {:induction false} RunPrefix(s: State, es: seq<Event>, k: nat)
    requires Possible(s, es) && k <= |es|
    ensures Possible(s, es[..k]) && Possible(Run(s, es[..k]), es[k..]) && Run(Run(s, es[..k]), es[k..]) == Run(s, es)
    decreases k
  {
    hide Step, Enabled;
    if k == 0 {
      assert es[..0] == [] && es[0..] == es;
    } else {
      RunPrefix(Step(s, es[0]), es[1..], k - 1);
      assert es[..k][1..] == es[1..][..k - 1] && es[1..][k - 1..] == es[k..];
    }
  }

  lemma OneEvent(s: State, e: Event)
    requires Enabled(s, e)
    ensures Possible(s, [e]) && Run(s, [e]) == Step(s, e)
  {
    hide Step, Enabled;
    assert [e][1..] == [];
  }

  /** Event `k` of the run exists, and takes the state after `k` events to the one after `k + 1`. */
  lemma RunAt(s: State, es: seq<Event>, k: nat)
    requires Possible(s, es) && k < |es|
    ensures Possible(s, es[..k]) && Possible(s, es[..k + 1]) && Enabled(Run(s, es[..k]), es[k])
    ensures Run(s, es[..k + 1]) == Step(Run(s, es[..k]), es[k])
  {
    hide Step, Enabled, Run;
    RunPrefix(s, es, k);
    OneEvent(Run(s, es[..k]), es[k]);
    RunThen(s, es[..k], [es[k]]);
    assert es[..k + 1] == es[..k] + [es[k]];
  }

  function After(s: State, es: seq<Event>, k: nat): State
    requires Possible(s, es) && k <= |es|
  {
    RunPrefix(s, es, k);
    Run(s, es[..k])
  }

  /**
   Job `j` has its first run with event `k` of the run and is ended by a stop, or by its own failure,
   with event `l`.
   */
  ghost predicate RanAndRolledBack(s: State, es: seq<Event>, k: nat, l: nat, j: JobId)
    requires Possible(s, es) && k < l < |es|
  {
    var found, begun, last, end := After(s, es, k), After(s, es, k + 1), After(s, es, l), After(s, es, l + 1);
    && j in found.jobs && found.jobs[j].resumable && found.jobs[j].attempts == 0
    && j in begun.jobs && begun.jobs[j].attempts > 0
    && j in last.jobs && !IsTerminal(last.jobs[j].status) && j in end.jobs && EndedByRollback(end.jobs[j])
  }

  /** `RollbackRestoresFirstRun`, told of one run. */
  lemma RollbackWithinARun(s: State, es: seq<Event>, k: nat, l: nat, j: JobId)
    requires Init(s) && Possible(s, es) && k < l < |es| && RanAndRolledBack(s, es, k, l, j)
    ensures DbAt(After(s, es, l + 1), LockKey(After(s, es, l + 1).jobs[j])) ==
            DbAt(After(s, es, k), LockKey(After(s, es, k).jobs[j]))
  {
    hide Init, Step, Enabled, Run, LockKey, DbAt, EndedByRollback;
    RunAt(s, es, k);
    RunAt(s, es, l);
    RunPrefix(s, es, l);
    RunPrefix(s, es[..l], k + 1);
    assert es[..l][..k + 1] == es[..k + 1];
    RollbackRestoresFirstRun(s, es[..k], After(s, es, k), es[k], es[..l][k + 1..], After(s, es, l), es[l], j);
  }

  // ----- Requests are honoured -----

  /**
   No resumable job becomes `completed` while an accepted pause or stop is pending, and none is
   pending afterwards: the check and the write share the transition lock with both request paths.
   */
  lemma NoCompletionOverARequest(s0: State, es: seq<Event>, s: State, e: Event, j: JobId)
    requires Reachable(s0, es, s) && Enabled(s, e) && j in s.jobs && s.jobs[j].resumable
    requires !s.jobs[j].status.Completed? && j in Step(s, e).jobs && Step(s, e).jobs[j].status.Completed?
    ensures !StopOrPause(s, j) && !StopOrPause(Step(s, e), j)
  {
    hide Records, Remembered, Queueing, Locking, Transitions, Served, DataInv, StartOrder;
    hide Step, Apply, Do, AfterCall, Shifted, Run, Init, MoveOf;
    ReachableInv(s0, es, s);
    StepKeepsInv(s, e);
    assert RequestFits(Step(s, e), j);
    var w := WriteOn(s, e, j);
    OneUpdate(s, e, j);
    ApplyMeaning(s.jobs[j], w.patch, w.now);
    if e.Acquire? {
      EnteringResumable(s, e.now, j);
    }
    if e.Worker? && s.worker.id == j {
      CompletingMove(s, e.action, j);
      assert RequestFits(s, j);
    }
  }

  lemma CompletingMove(s: State, a: Action, j: JobId)
    requires CanAct(s, a) && s.worker.id == j && s.jobs[j].resumable && (s.worker.InSimple? ==> !s.jobs[j].resumable)
    requires MoveOf(s, a).patch.status == Put(Completed)
    ensures s.worker.Checked?
  {
  }

  /** A stop has been accepted for `j` and shows in its status. */
  ghost predicate StopHeld(s: State, j: JobId) {
    j in s.jobs && s.jobs[j].resumable && s.jobs[j].status.Stopping? && Requested(s, j, StopRequest)
      && j !in s.abandoned
  }

  /**
   The events after which the status is no longer `stopping`: the stop itself, successful or with
   a rollback that raises, a failure of the job on its own, or a resolver that raises. What then
   becomes of the stop is told in JobEngineStops.
   */
  predicate EndsStop(s: State, e: Event, j: JobId) {
    && ByWorkerOn(s, e, j)
    && (|| e.action.StopWrite? || e.action.StopAbandon? || e.action.StopUndoFails?
        || e.action.FailWrite? || e.action.FailUndoFails? || e.action.ResolveFails?)
  }

  /** A bare progress write by the operation of `j` (task_control.py:51-57), which puts the status back to `running`. */
  predicate BareProgress(s: State, e: Event, j: JobId) {
    ByWorkerOn(s, e, j) && e.action.OpProgress?
  }

  /**
   While a stop is held, a move of the worker with that job leaves status and request alone, with
   these exceptions.
   */
  lemma HeldMove(s: State, a: Action, j: JobId)
    requires Local(s) && CanAct(s, a) && s.worker.id == j && StopHeld(s, j)
    ensures var m := MoveOf(s, a);
      Value(m.patch.status, s.jobs[j].status).Stopping? && !m.abandon && !m.drop <==>
      !EndsStop(s, Worker(a), j) && !a.OpProgress?
  {
    hide Apply;
  }

  lemma HeldByMove(s: State, a: Action, j: JobId)
    requires Inv(s) && CanAct(s, a) && StopHeld(s, j)
    ensures StopHeld(Do(s, MoveOf(s, a)), j) <==>
            (s.worker.id == j ==> !EndsStop(s, Worker(a), j) && !a.OpProgress?)
  {
    hide Records, Domains, Operations, Remembered, Queueing, Locking, Transitions, Statuses, Served, Requests,
         DataInv, StartOrder;
    hide Do, MoveOf, Local;
    LocalFacts(s);
    DoFrame(s, MoveOf(s, a));
    if s.worker.id == j {
      HeldMove(s, a, j);
    }
  }

  lemma HeldByCall(s: State, c: Call, j: JobId)
    requires CanCall(s, c) && StopHeld(s, j)
    ensures StopHeld(AfterCall(s, c), j)
  {
    hide Apply, NewJob;
  }

  /** Only jobs that are not resumable are shifted with a write. */
  lemma HeldByShift(s: State, k: JobId, x: Shift, j: JobId)
    requires Domains(s) && k in s.jobs && SoundShift(s, k, x) && StopHeld(s, j)
    ensures StopHeld(Shifted(s, k, x), j)
  {
    hide Shifted, Fits, Allowed;
    ShiftFrame(s, k, x);
  }

  /**
   An accepted stop goes on showing after an event exactly unless that is a bare progress write or
   one that ends it.
   */
  lemma StopIsKept(s: State, e: Event, j: JobId)
    requires Inv(s) && Enabled(s, e) && StopHeld(s, j)
    ensures StopHeld(Step(s, e), j) <==> !BareProgress(s, e, j) && !EndsStop(s, e, j)
  {
    hide Operations, Remembered, Locking, Transitions, Served, Requests, DataInv, StartOrder;
    hide MoveOf, Do, AfterCall, Shifted, AcquireShift, BriefShift, SoundShift, RecordInv, Fits;
    match e
    case Outside(c) => HeldByCall(s, c, j);
    case Fetch =>
    case Acquire(now) =>
      AcquireIsSound(s, now);
      HeldByShift(s, s.worker.id, AcquireShift(s, now), j);
    case Worker(a) => HeldByMove(s, a, j);
    case InShort(b) =>
      BriefsAreSound(s, b);
      HeldByShift(s, b.id, BriefShift(s, b), j);
  }

  /** No event of the run is a bare progress write of `j` or ends its stop. */
  ghost predicate Undisturbed(s: State, es: seq<Event>, j: JobId)
    requires Possible(s, es)
    decreases |es|
  {
    es == [] || (!BareProgress(s, es[0], j) && !EndsStop(s, es[0], j) && Undisturbed(Step(s, es[0]), es[1..], j))
  }

  /**
   An accepted stop shows for as long as the worker does not end it: whatever pauses, resumes,
   interruptions, closings and other jobs come in between.
   */
  lemma {:induction false} StopIsNeverLost(s: State, es: seq<Event>, j: JobId)
    requires Inv(s) && Possible(s, es) && StopHeld(s, j) && Undisturbed(s, es, j)
    ensures StopHeld(Run(s, es), j)
    decreases |es|
  {
    hide Inv, Step, Enabled, StopHeld, BareProgress, EndsStop;
    if es != [] {
      StopIsKept(s, es[0], j);
      StepKeepsInv(s, es[0]);
      StopIsNeverLost(Step(s, es[0]), es[1..], j);
    }
  }

  /** A held stop sends the worker to `_perform_stop` at every point where it decides what to do with the job. */
  lemma StopIsObeyed(s: State, a: Action, j: JobId)
    requires Inv(s) && CanAct(s, a) && s.worker.id == j && StopHeld(s, j)
    requires a.Top? || a.Wake? || a.OpControlPoint? || a.CompleteCheck? || a.PauseDecide? || a.InterruptDecide?
    ensures Do(s, MoveOf(s, a)).worker == StopMark(j)
  {
    hide Records, Domains, Operations, Remembered, Queueing, Locking, Transitions, Statuses, Served, Requests,
         DataInv, StartOrder;
    hide Do;
    DoFrame(s, MoveOf(s, a));
  }

  /** After the job's own rollback has failed with a stop still requested. */
  ghost predicate StopParked(s: State, j: JobId) {
    j in s.jobs && s.jobs[j].resumable && IsPaused(s.jobs[j].status) && Requested(s, j, StopRequest)
    && Current(s.worker) == Some(j) && (s.worker.AtTop? || s.worker.Waiting?)
  }

  lemma ParkedByFailure(s: State, a: Action, j: JobId)
    requires Inv(s) && CanAct(s, a) && s.worker.id == j && StopHeld(s, j) && a.FailUndoFails?
    ensures StopParked(Do(s, MoveOf(s, a)), j)
  {
    hide Records, Domains, Operations, Remembered, Queueing, Locking, Transitions, Statuses, Served, Requests,
         DataInv, StartOrder;
    hide Do;
    DoFrame(s, MoveOf(s, a));
  }

  /** While a stop is parked, a call drops it exactly when it is a resume of that job. */
  lemma ParkedStopIsDroppedByResume(s: State, c: Call, j: JobId)
    requires StopParked(s, j) && CanCall(s, c)
    ensures !Requested(AfterCall(s, c), j, StopRequest) <==> c.Resume? && c.id == j
  {
    hide Apply, NewJob;
  }

  /** An accepted stop is held from then on, unless the job was abandoned before: then nothing will carry it out. */
  lemma AcceptedStopIsHeld(s: State, j: JobId, now: int)
    requires CanCall(s, Stop(j, now))
    ensures StopHeld(AfterCall(s, Stop(j, now)), j) <==> j !in s.abandoned
  {
    hide Apply;
  }

  /**
   Why a stop can be replaced: after a bare progress write the request still stands, but a pause
   is accepted, and so is a shutdown request in a closing manager; and a call replaces the stop
   exactly when it is one of the two.
   */
  lemma ProgressLetsAPauseReplaceAStop(s: State, j: JobId, p: real, m: string, t: int)
    requires Transitions(s) && StopHeld(s, j) && s.worker == InRun(j)
    ensures CanAct(s, OpProgress(p, m, t))
    ensures var r := Do(s, MoveOf(s, OpProgress(p, m, t)));
      && Requested(r, j, StopRequest)
      && (CanCall(r, Pause(j, t)) <==> j !in s.transition) && (CanCall(r, Shutdown(j, t)) <==> s.closing)
      && forall c :: CanCall(r, c) ==>
           (!Requested(AfterCall(r, c), j, StopRequest) <==> (c.Pause? || c.Shutdown?) && c.id == j)
  {
    hide Apply, Do;
    var r := Do(s, MoveOf(s, OpProgress(p, m, t)));
    ProgressWrites(s, j, p, m, t);
    forall c | CanCall(r, c)
      ensures !Requested(AfterCall(r, c), j, StopRequest) <==> (c.Pause? || c.Shutdown?) && c.id == j
    {
      ReplacedByCall(r, c, j);
    }
  }

  lemma ProgressWrites(s: State, j: JobId, p: real, m: string, t: int)
    requires Transitions(s) && StopHeld(s, j) && s.worker == InRun(j)
    ensures var r := Do(s, MoveOf(s, OpProgress(p, m, t)));
      && j in r.jobs && r.jobs[j].status.Running? && r.jobs[j].resumable && Requested(r, j, StopRequest)
      && r.closing == s.closing && r.transition == s.transition
  {
    hide Apply;
  }

  lemma ReplacedByCall(s: State, c: Call, j: JobId)
    requires CanCall(s, c) && j in s.jobs && s.jobs[j].status.Running? && Requested(s, j, StopRequest)
    ensures !Requested(AfterCall(s, c), j, StopRequest) <==> (c.Pause? || c.Shutdown?) && c.id == j
  {
    hide Apply, NewJob;
  }

  lemma AbandoningMove(s: State, a: Action)
    requires CanAct(s, a)
    ensures MoveOf(s, a).abandon <==> a.StopAbandon? || (a.PauseDone? && s.worker.shutdown)
  {
  }

  /**
   The worker lets a job go unfinished exactly after a rollback that failed in a stop, or when a
   shutdown pauses it.
   */
  lemma HowJobsAreAbandoned(s: State, e: Event, j: JobId)
    requires Enabled(s, e) && j !in s.abandoned
    ensures j in Step(s, e).abandoned <==>
            ByWorkerOn(s, e, j) && (e.action.StopAbandon? || (e.action.PauseDone? && s.worker.shutdown))
  {
    hide Apply, Do, MoveOf, AfterCall, Shifted, AcquireShift, BriefShift;
    match e
    case Outside(c) => CallFrame(s, c);
    case Fetch =>
    case Acquire(now) => ShiftFrame(s, s.worker.id, AcquireShift(s, now));
    case Worker(a) =>
      DoFrame(s, MoveOf(s, a));
      AbandoningMove(s, a);
    case InShort(b) => ShiftFrame(s, b.id, BriefShift(s, b));
  }

  // ----- A paused job and its wake-up -----

  /** The worker waits with a paused job, and nothing that would wake it is under way. */
  ghost predicate Asleep(s: State, j: JobId) {
    && s.worker == Waiting(j) && j in s.jobs && IsPaused(s.jobs[j].status)
    && j !in s.events && j !in s.signals && !(j in s.transition && s.transition[j] == ByStop)
  }

  lemma AsleepCall(s: State, c: Call, j: JobId)
    requires CanCall(s, c) && Asleep(s, j) && !((c.Resume? || c.Stop?) && c.id == j)
    ensures Asleep(AfterCall(s, c), j)
  {
    hide Apply, NewJob;
  }

  lemma AsleepShort(s: State, b: Brief, j: JobId)
    requires Domains(s) && CanBrief(s, b) && Asleep(s, j)
    ensures var r := Shifted(s, b.id, BriefShift(s, b)); Asleep(r, j) && r.starts == s.starts
  {
    hide Shifted, BriefShift;
    ShiftFrame(s, b.id, BriefShift(s, b));
    ShiftWaits(s, b);
  }

  lemma AsleepWorker(s: State, a: Action, j: JobId)
    requires Asleep(s, j)
    ensures !CanAct(s, a)
  {
  }

  /** A sleeping job is woken by nothing but a resume or a stop of that job; until then no long job starts. */
  lemma AsleepUntilAsked(s: State, e: Event, j: JobId)
    requires Domains(s) && Enabled(s, e) && Asleep(s, j)
    requires !(e.Outside? && (e.call.Resume? || e.call.Stop?) && e.call.id == j)
    ensures Asleep(Step(s, e), j) && Step(s, e).starts == s.starts
  {
    hide Shifted, BriefShift, AfterCall, AfterFetch, AcquireShift, Do, MoveOf, CanAct, Domains;
    match e
    case Outside(c) =>
      CallFrame(s, c);
      AsleepCall(s, c, j);
    case InShort(b) => AsleepShort(s, b, j);
    case Fetch =>
    case Acquire(now) =>
    case Worker(a) => AsleepWorker(s, a, j);
  }

  lemma ShiftWaits(s: State, b: Brief)
    requires CanBrief(s, b)
    ensures var r := Shifted(s, b.id, BriefShift(s, b)); var x := BriefShift(s, b);
      x.worker == s.worker && !x.start && r.events == s.events && r.signals == s.signals
  {
    hide Apply;
  }

  /** The calls of a doubled resume, as they can interleave with the worker. */
  function DoubledResume(j: JobId, t: int): seq<Event> {
    [Outside(Resume(j, t)), Outside(Resume(j, t)), Outside(Signal(j)), Worker(Wake(t)), Outside(Signal(j))]
  }

  lemma RunCons(s: State, e: Event, es: seq<Event>)
    requires Enabled(s, e) && Possible(Step(s, e), es)
    ensures Possible(s, [e] + es) && Run(s, [e] + es) == Run(Step(s, e), es)
  {
    hide Step, Enabled;
    assert ([e] + es)[1..] == es;
  }

  lemma ResumeTwice(s: State, j: JobId, t: int)
    requires Asleep(s, j) && s.jobs[j].resumable
    ensures CanCall(s, Resume(j, t)) && CanCall(AfterCall(s, Resume(j, t)), Resume(j, t))
    ensures var r := AfterCall(AfterCall(s, Resume(j, t)), Resume(j, t));
      r.worker == Waiting(j) && j in r.jobs && j !in r.requests && r.signals[j] == 2
  {
    hide Apply;
  }

  lemma SignalOnce(s: State, j: JobId)
    requires j in s.signals
    ensures CanCall(s, Signal(j))
    ensures AfterCall(s, Signal(j)) == s.(events := s.events + {j}, signals := s.signals - multiset{j})
  {
  }

  /**
   Where a pause does not hold: `resume` takes no lock, so a second call can be accepted before
   the job has woken and send its signal after. The signal is then left over for the next pause.
   */
  lemma DoubledResumeLeavesASignal(s: State, j: JobId, t: int)
    requires Asleep(s, j) && s.jobs[j].resumable
    ensures Possible(s, DoubledResume(j, t))
    ensures var r := Run(s, DoubledResume(j, t));
      r.worker == InRun(j) && j in r.events && j in r.jobs && r.jobs[j].status.Running? && j !in r.requests
  {
    hide Apply, Do, MoveOf, AfterCall, CanCall, CanAct, Asleep;
    ResumeTwice(s, j, t);
    var s1 := AfterCall(s, Resume(j, t));
    var s2 := AfterCall(s1, Resume(j, t));
    SignalOnce(s2, j);
    var s3 := AfterCall(s2, Signal(j));
    WakeRuns(s3, j, t);
    var s4 := Do(s3, MoveOf(s3, Wake(t)));
    SignalOnce(s4, j);
    var s5 := AfterCall(s4, Signal(j));
    assert Possible(s5, []) && Run(s5, []) == s5;
    RunCons(s4, Outside(Signal(j)), []);
    RunCons(s3, Worker(Wake(t)), [Outside(Signal(j))] + []);
    RunCons(s2, Outside(Signal(j)), [Worker(Wake(t))] + ([Outside(Signal(j))] + []));
    RunCons(s1, Outside(Resume(j, t)), [Outside(Signal(j))] + ([Worker(Wake(t))] + ([Outside(Signal(j))] + [])));
    RunCons(s, Outside(Resume(j, t)),
            [Outside(Resume(j, t))] + ([Outside(Signal(j))] + ([Worker(Wake(t))] + ([Outside(Signal(j))] + []))));
    assert DoubledResume(j, t) ==
      [Outside(Resume(j, t))]
        + ([Outside(Resume(j, t))] + ([Outside(Signal(j))] + ([Worker(Wake(t))] + ([Outside(Signal(j))] + []))));
  }

  lemma WakeRuns(s: State, j: JobId, t: int)
    requires s.worker == Waiting(j) && j in s.jobs && j in s.events && j !in s.requests && j in s.signals
    ensures CanAct(s, Wake(t))
    ensures var r := Do(s, MoveOf(s, Wake(t)));
      r.worker == InRun(j) && j in r.jobs && r.jobs[j].status.Running? && j !in r.requests && r.signals == s.signals
  {
    hide Apply;
  }

  lemma MovesKeepSignals(s: State, a: Action)
    requires CanAct(s, a) && !a.Wake? && !(a.ResolveFails? && s.worker.Waiting?)
    ensures Do(s, MoveOf(s, a)).events == s.events
  {
    hide Apply, Do, MoveOf;
    OnlyWakingClears(s, a);
    EventsAfter(s, MoveOf(s, a));
  }

  lemma OnlyWakingClears(s: State, a: Action)
    requires CanAct(s, a)
    ensures MoveOf(s, a).clear <==> a.Wake? || (a.ResolveFails? && s.worker.Waiting?)
  {
  }

  lemma EventsAfter(s: State, m: Move)
    requires !s.worker.Idle? && s.worker.id in s.jobs && !m.clear
    ensures Do(s, m).events == s.events
  {
    hide Apply;
  }

  lemma CallsKeepSignals(s: State, c: Call)
    requires CanCall(s, c)
    ensures s.events <= AfterCall(s, c).events
  {
    hide Apply, NewJob;
  }

  /** A signal that has been set stays until the worker consumes it: a leftover one lets the next pause pass at once. */
  lemma SignalStays(s: State, e: Event, j: JobId)
    requires Enabled(s, e) && j in s.events
    requires !(ByWorkerOn(s, e, j) && (e.action.Wake? || (e.action.ResolveFails? && s.worker.Waiting?)))
    ensures j in Step(s, e).events
  {
    hide Apply, Do, MoveOf, AfterCall, BriefShift, AcquireShift;
    match e
    case Outside(c) => CallsKeepSignals(s, c);
    case Worker(a) =>
      if a.Wake? || (a.ResolveFails? && s.worker.Waiting?) {
        WakeClearsOne(s, a);
      } else {
        MovesKeepSignals(s, a);
      }
    case _ =>
  }

  lemma WakeClearsOne(s: State, a: Action)
    requires CanAct(s, a)
    ensures s.events - {s.worker.id} <= Do(s, MoveOf(s, a)).events
  {
    hide Apply, MoveOf;
  }
}
