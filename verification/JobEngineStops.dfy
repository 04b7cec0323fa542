/** What becomes of an accepted stop in every run, and exactly which events can still lose it. */
module JobEngineStops {
  import opened Common
  import opened JobRecord
  import opened JobEngine
  import opened JobEngineInv
  import opened JobEngineTheorems

  /** An accepted stop is still to be carried out: its request stands, or the worker is inside `_perform_stop`. */
  ghost predicate StopPending(s: State, j: JobId) {
    && j in s.jobs && s.jobs[j].resumable && !IsTerminal(s.jobs[j].status) && j !in s.abandoned
    && (Requested(s, j, StopRequest) || InStop(s.worker, j))
  }

  /** The job was stopped, or failed by its operation: see `RollbackEnding` for what that takes. */
  predicate RolledBack(s: State, j: JobId) {
    j in s.jobs && s.jobs[j].resumable && EndedByRollback(s.jobs[j])
  }

  /** The stop is pending, was carried out by a rollback, or the job was abandoned after a rollback that raised. */
  ghost predicate StopStands(s: State, j: JobId) {
    StopPending(s, j) || RolledBack(s, j) || j in s.abandoned
  }

  /**
   The events that lose a pending stop, all of them before the worker enters `_perform_stop`: a
   resolver that raises, and a pause, a shutdown request or a resume that is accepted.
   */
  predicate LosesStop(s: State, e: Event, j: JobId) {
    && !InStop(s.worker, j)
    && (|| (ByWorkerOn(s, e, j) && e.action.ResolveFails?)
        || (e.Outside? && (e.call.Pause? || e.call.Shutdown? || e.call.Resume?) && e.call.id == j))
  }

  // ----- One event -----

  /** What a move of the worker with the job makes of the stop, told by the move alone. */
  ghost predicate MoveKeepsStop(s: State, m: Move, j: JobId)
    requires j in s.jobs
  {
    var job := s.jobs[j];
    var status := Value(m.patch.status, job.status);
    || m.abandon
    || status.Stopped?
    || (status.Failed? && Value(m.patch.reason, job.reason) == OPERATION_FAILED)
    || (!IsTerminal(status) && ((Requested(s, j, StopRequest) && !m.drop) || InStop(m.next, j)))
  }

  lemma PendingMove(s: State, a: Action, j: JobId)
    requires Local(s) && CanAct(s, a) && s.worker.id == j && StopPending(s, j)
    ensures MoveKeepsStop(s, MoveOf(s, a), j) <==> !a.ResolveFails?
    ensures a.ResolveFails? ==> !InStop(s.worker, j)
  {
    assert "manager_error" != OPERATION_FAILED;
  }

  lemma MovedStop(s: State, m: Move, j: JobId)
    requires !s.worker.Idle? && s.worker.id == j && StopPending(s, j)
    ensures StopStands(Do(s, m), j) <==> MoveKeepsStop(s, m, j)
  {
    hide Do, Apply;
    DoFrame(s, m);
    DoJob(s, m, j);
    ApplyMeaning(s.jobs[j], m.patch, m.now);
  }

  lemma PendingByMove(s: State, a: Action, j: JobId)
    requires Inv(s) && CanAct(s, a) && StopPending(s, j)
    ensures StopStands(Do(s, MoveOf(s, a)), j) <==> !LosesStop(s, Worker(a), j)
  {
    hide Records, Domains, Operations, Remembered, Queueing, Locking, Transitions, Statuses, Served, Requests;
    hide DataInv, StartOrder, Do, MoveOf, MoveKeepsStop, Local, StopStands;
    LocalFacts(s);
    if s.worker.id == j {
      PendingMove(s, a, j);
      MovedStop(s, MoveOf(s, a), j);
    } else {
      PendingElsewhere(s, a, j);
    }
  }

  lemma PendingElsewhere(s: State, a: Action, j: JobId)
    requires Inv(s) && CanAct(s, a) && StopPending(s, j) && s.worker.id != j
    ensures StopStands(Do(s, MoveOf(s, a)), j)
  {
    hide Records, Domains, Operations, Remembered, Queueing, Locking, Transitions, Statuses, Served, Requests;
    hide DataInv, StartOrder, Do, MoveOf;
    DoFrame(s, MoveOf(s, a));
  }

  lemma NotQueued(s: State, j: JobId)
    requires Domains(s) && Statuses(s) && StopPending(s, j)
    ensures !s.jobs[j].status.Queued?
  {
  }

  /** A call that writes job `k` keeps the pending stop of `j`, unless it replaces or pops its request. */
  lemma PokedStop(s: State, k: JobId, p: Patch, now: int, ask: Ask, lock: Option<Holder>, signal: bool, j: JobId)
    requires k in s.jobs && StopPending(s, j)
    requires k == j ==> !IsTerminal(Value(p.status, s.jobs[j].status))
    ensures StopStands(Poke(s, k, p, now, ask, lock, signal), j) <==>
            k != j || InStop(s.worker, j) || Asked(s, j, ask, StopRequest)
  {
    hide Poke, Allowed, RecordInv;
    PokeFrame(s, k, p, now, ask, lock, signal);
  }

  lemma PendingByCall(s: State, c: Call, j: JobId)
    requires Domains(s) && Statuses(s) && CanCall(s, c) && StopPending(s, j)
    ensures StopStands(AfterCall(s, c), j) <==> !LosesStop(s, Outside(c), j)
  {
    hide Apply, NewJob, Domains, Statuses, Poke;
    NotQueued(s, j);
    match c
    case Pause(k, now) => PokedStop(s, k, PAUSE_PATCH, now, Set(PauseRequest), Some(ByPause), false, j);
    case Resume(k, now) => PokedStop(s, k, RESUME_PATCH, now, Pop, None, true, j);
    case Stop(k, now) => PokedStop(s, k, STOP_PATCH, now, Set(StopRequest), Some(ByStop), false, j);
    case Shutdown(k, now) => PokedStop(s, k, SHUTDOWN_PATCH, now, Set(ShutdownRequest), None, true, j);
    case Cancel(k, why, now) =>
      PokedStop(s.(operations := s.operations - {k}), k, CancelPatch(why), now, Same, None, false, j);
    case _ =>
  }

  lemma PendingByShift(s: State, k: JobId, x: Shift, j: JobId)
    requires Domains(s) && k in s.jobs && SoundShift(s, k, x) && StopPending(s, j)
    ensures StopPending(Shifted(s, k, x), j)
  {
    hide Shifted, Fits, Allowed;
    ShiftFrame(s, k, x);
  }

  /**
   A pending stop outlives an event, or is carried out by it or left with an abandoned job, exactly
   unless the event loses it.
   */
  lemma StopStep(s: State, e: Event, j: JobId)
    requires Inv(s) && Enabled(s, e) && StopPending(s, j)
    ensures StopStands(Step(s, e), j) <==> !LosesStop(s, e, j)
  {
    hide Operations, Remembered, Locking, Transitions, Served, Requests, DataInv, StartOrder;
    hide MoveOf, Do, AfterCall, Shifted, AcquireShift, BriefShift, SoundShift, RecordInv, Fits;
    match e
    case Outside(c) => PendingByCall(s, c, j);
    case Fetch =>
    case Acquire(now) =>
      AcquireIsSound(s, now);
      PendingByShift(s, s.worker.id, AcquireShift(s, now), j);
    case Worker(a) => PendingByMove(s, a, j);
    case InShort(b) =>
      BriefsAreSound(s, b);
      PendingByShift(s, b.id, BriefShift(s, b), j);
  }

  /** No position of the worker fits a job that was stopped or has failed, so nothing touches such a job again. */
  lemma RolledBackStays(s: State, e: Event, j: JobId)
    requires Inv(s) && Enabled(s, e) && RolledBack(s, j)
    ensures RolledBack(Step(s, e), j)
  {
    hide Records, Operations, Remembered, Queueing, Locking, Transitions, Served, Requests, DataInv, StartOrder;
    hide Step, Apply, MoveOf, BriefShift, AcquireShift;
    NothingApplied(s.jobs[j], 0);
    OneUpdate(s, e, j);
    FixedFields(s, e, j);
    assert WriteOn(s, e, j) == Identity(NOTHING);
  }

  lemma StandsStep(s: State, e: Event, j: JobId)
    requires Inv(s) && Enabled(s, e) && StopStands(s, j)
    ensures StopStands(Step(s, e), j) <==> !(StopPending(s, j) && LosesStop(s, e, j))
  {
    hide Inv, Step, Enabled, LosesStop, StopPending, RolledBack;
    if StopPending(s, j) {
      StopStep(s, e, j);
    } else if RolledBack(s, j) {
      RolledBackStays(s, e, j);
    } else {
      AbandonedStays(s, e, j);
    }
  }

  // ----- Whole runs -----

  /** Some event of the run loses the stop. */
  ghost predicate Lost(s: State, es: seq<Event>, j: JobId)
    requires Possible(s, es)
    decreases |es|
  {
    es != [] && ((StopPending(s, j) && LosesStop(s, es[0], j)) || Lost(Step(s, es[0]), es[1..], j))
  }

  /** The stop stands in every state of the run. */
  ghost predicate StandsThroughout(s: State, es: seq<Event>, j: JobId)
    requires Possible(s, es)
    decreases |es|
  {
    StopStands(s, j) && (es != [] ==> StandsThroughout(Step(s, es[0]), es[1..], j))
  }

  /**
   Over any run a stop stands throughout exactly when none of the events of `LosesStop` meets it
   while it is pending.
   */
  lemma {:induction false} StopStandsUnlessLost(s: State, es: seq<Event>, j: JobId)
    requires Inv(s) && Possible(s, es) && StopStands(s, j)
    ensures StandsThroughout(s, es, j) <==> !Lost(s, es, j)
    decreases |es|
  {
    hide Inv, Step, Enabled, StopStands, LosesStop, StopPending;
    if es != [] {
      StandsStep(s, es[0], j);
      StepKeepsInv(s, es[0]);
      if StopStands(Step(s, es[0]), j) {
        StopStandsUnlessLost(Step(s, es[0]), es[1..], j);
      }
    }
  }

  lemma {:induction false} StandsAtTheEnd(s: State, es: seq<Event>, j: JobId)
    requires Possible(s, es) && StandsThroughout(s, es, j)
    ensures StopStands(Run(s, es), j)
    decreases |es|
  {
    hide Step, Enabled, StopStands;
    if es != [] {
      StandsAtTheEnd(Step(s, es[0]), es[1..], j);
    }
  }

  /**
   Once a stop is pending, and unless one of the events of `LosesStop` meets it, the job is in
   every later state on its way through the stop, or ended by a rollback, or abandoned after a
   rollback that raised. It never completes, is never cancelled, and does not fail in any other way.
   */
  lemma StopEndsInARollback(s: State, es: seq<Event>, j: JobId)
    requires Inv(s) && Possible(s, es) && StopPending(s, j) && !Lost(s, es, j)
    ensures var r := Run(s, es);
      && j in r.jobs
      && (if IsTerminal(r.jobs[j].status) then EndedByRollback(r.jobs[j]) else StopPending(r, j) || j in r.abandoned)
      && !r.jobs[j].status.Completed? && !r.jobs[j].status.Cancelled?
      && (r.jobs[j].status.Failed? ==> r.jobs[j].reason == OPERATION_FAILED)
  {
    hide Run, Step, Enabled, Lost, StandsThroughout;
    hide Records, Domains, Operations, Remembered, Queueing, Locking, Transitions, Statuses, Requests, DataInv,
         StartOrder;
    StopStandsUnlessLost(s, es, j);
    StandsAtTheEnd(s, es, j);
    RunKeepsInv(s, es);
  }

  /** A pending stop is left with an abandoned job only after the rollback of the stop itself has raised. */
  lemma AbandonedFromAStop(s: State, e: Event, j: JobId)
    requires Inv(s) && Enabled(s, e) && StopPending(s, j) && j in Step(s, e).abandoned
    ensures ByWorkerOn(s, e, j) && e.action.StopAbandon? && s.worker == StopStuck(j)
  {
    hide Records, Domains, Operations, Remembered, Queueing, Locking, Transitions, Statuses, Served, DataInv,
         StartOrder;
    hide Step;
    HowJobsAreAbandoned(s, e, j);
    assert RequestFits(s, j);
  }

  // ----- What each loss is -----

  /** While the stop shows as `stopping`, only a resolver that raises can lose it. */
  lemma OnlyTheResolverLosesAHeldStop(s: State, e: Event, j: JobId)
    requires Enabled(s, e) && StopHeld(s, j) && LosesStop(s, e, j)
    ensures ByWorkerOn(s, e, j) && e.action.ResolveFails?
  {
  }

  /**
   The resolver is called before the request is looked at (jobs.py:845-848). Whenever the worker
   comes back to a job with a held stop it can raise; then the job has failed with
   `manager_error`, without a rollback: its database is as the job left it, and the lock is free.
   */
  lemma ResolverLosesAStop(s: State, j: JobId, now: int)
    requires Inv(s) && StopHeld(s, j) && (s.worker == AtTop(j) || (s.worker == Waiting(j) && j in s.events))
    ensures Enabled(s, Worker(ResolveFails(now)))
    ensures var r := Step(s, Worker(ResolveFails(now)));
      && j in r.jobs && r.jobs[j].status.Failed? && r.jobs[j].reason == "manager_error" && !StopStands(r, j)
      && r.db == s.db && LockKey(s.jobs[j]) !in r.execution && r.worker.Idle?
  {
    hide Records, Domains, Operations, Remembered, Queueing, Locking, Transitions, Statuses, Served, Requests,
         DataInv, StartOrder;
    hide Do, Apply, StopStands, LockKey;
    var a := ResolveFails(now);
    var m := MoveOf(s, a);
    DoFrame(s, m);
    DoHistory(s, m);
    DoJob(s, m, j);
    ApplyMeaning(s.jobs[j], m.patch, now);
    HeldIsPending(s, j);
    StopStep(s, Worker(a), j);
  }

  lemma HeldIsPending(s: State, j: JobId)
    requires StopHeld(s, j)
    ensures StopPending(s, j)
  {
  }

  /** The calls that lose a stop, what they need, and what they leave. */
  lemma CallsThatLoseAStop(s: State, c: Call, j: JobId)
    requires CanCall(s, c) && StopPending(s, j) && LosesStop(s, Outside(c), j)
    ensures var before := s.jobs[j].status; var r := AfterCall(s, c);
      && j in r.jobs && !Requested(r, j, StopRequest)
      && (c.Pause? ==> before.Running? && r.jobs[j].status.Pausing? && Requested(r, j, PauseRequest))
      && (c.Shutdown? ==> s.closing && (before.Running? || before.Pausing?) && Requested(r, j, ShutdownRequest))
      && (c.Resume? ==> IsPaused(before) && r.jobs[j].status.Paused? && j !in r.requests)
  {
    hide Apply, NewJob, Poke;
    match c
    case Pause(k, now) => PokeFrame(s, k, PAUSE_PATCH, now, Set(PauseRequest), Some(ByPause), false);
    case Resume(k, now) =>
      PokeFrame(s, k, RESUME_PATCH, now, Pop, None, true);
      var r := AfterCall(s, c);
      assert j in r.requests ==> Requested(r, j, r.requests[j]);
    case Shutdown(k, now) => PokeFrame(s, k, SHUTDOWN_PATCH, now, Set(ShutdownRequest), None, true);
  }

  /** An interruption, and a stop while the job is interrupted; then the resolver raises. */
  function LostStop(j: JobId, why: string, t: int): seq<Event> {
    [Worker(OpInterrupts(why)), Worker(InterruptDecide(t)), Worker(InterruptDone), Outside(Stop(j, t)),
      Worker(ResolveFails(t))]
  }

  /** The worker is about to run the operation of `j` on, and nothing is asked of it. */
  ghost predicate Running(s: State, j: JobId, w: Worker) {
    && s.worker == w && !w.Idle? && w.id == j && j in s.jobs && s.jobs[j].resumable && !IsTerminal(s.jobs[j].status)
    && j !in s.requests && j !in s.transition && j !in s.abandoned
  }

  lemma Interrupting(s: State, j: JobId, why: string, t: int)
    requires Running(s, j, InRun(j))
    ensures CanAct(s, OpInterrupts(why))
    ensures var r := Do(s, MoveOf(s, OpInterrupts(why))); Running(r, j, InterruptSeen(j, why)) && r.db == s.db
  {
    hide Apply, LockKey, DbAt, Undone, BeginRun;
  }

  lemma InterruptDecided(s: State, j: JobId, why: string, t: int)
    requires Running(s, j, InterruptSeen(j, why))
    ensures CanAct(s, InterruptDecide(t))
    ensures var r := Do(s, MoveOf(s, InterruptDecide(t)));
      && r.worker == InterruptWritten(j) && j in r.jobs && r.jobs[j].resumable && r.jobs[j].status.Interrupted?
      && r.transition == s.transition[j := ByWorker] && j !in r.abandoned && r.db == s.db
  {
    hide Apply, LockKey, DbAt, Undone, BeginRun;
  }

  lemma Interrupted(s: State, j: JobId)
    requires s.worker == InterruptWritten(j) && j in s.jobs && s.jobs[j].resumable && s.jobs[j].status.Interrupted?
    requires j in s.transition && s.transition[j] == ByWorker && j !in s.abandoned
    ensures CanAct(s, InterruptDone)
    ensures var r := Do(s, MoveOf(s, InterruptDone));
      Running(r, j, AtTop(j)) && r.jobs[j].status.Interrupted? && r.db == s.db
  {
    hide Apply, LockKey, DbAt, Undone, BeginRun;
  }

  lemma StoppedAtTop(s: State, j: JobId, t: int)
    requires Running(s, j, AtTop(j)) && s.jobs[j].status.Interrupted?
    ensures CanCall(s, Stop(j, t))
    ensures var r := AfterCall(s, Stop(j, t)); StopHeld(r, j) && r.worker == AtTop(j) && r.db == s.db
  {
    hide Apply;
  }

  /**
   Every job whose operation runs undisturbed can lose a stop in this way: it fails with its database
   as it left it.
   */
  lemma InterruptedStopIsLost(s: State, j: JobId, why: string, t: int)
    requires Inv(s) && Running(s, j, InRun(j))
    ensures Possible(s, LostStop(j, why, t))
    ensures var r := Run(s, LostStop(j, why, t));
      && j in r.jobs && r.jobs[j].status.Failed? && r.jobs[j].reason == "manager_error" && !StopStands(r, j)
         && r.db == s.db
  {
    hide Inv, Apply, Do, MoveOf, AfterCall, CanCall, CanAct, Running, StopHeld, StopStands;
    Interrupting(s, j, why, t);
    var s1 := Step(s, Worker(OpInterrupts(why)));
    InterruptDecided(s1, j, why, t);
    var s2 := Step(s1, Worker(InterruptDecide(t)));
    Interrupted(s2, j);
    var s3 := Step(s2, Worker(InterruptDone));
    StoppedAtTop(s3, j, t);
    var s4 := Step(s3, Outside(Stop(j, t)));
    StepKeepsInv(s, Worker(OpInterrupts(why)));
    StepKeepsInv(s1, Worker(InterruptDecide(t)));
    StepKeepsInv(s2, Worker(InterruptDone));
    StepKeepsInv(s3, Outside(Stop(j, t)));
    ResolverLosesAStop(s4, j, t);
    var s5 := Step(s4, Worker(ResolveFails(t)));
    assert Possible(s5, []) && Run(s5, []) == s5;
    RunCons(s4, Worker(ResolveFails(t)), []);
    RunCons(s3, Outside(Stop(j, t)), [Worker(ResolveFails(t))] + []);
    RunCons(s2, Worker(InterruptDone), [Outside(Stop(j, t))] + ([Worker(ResolveFails(t))] + []));
    RunCons(s1, Worker(InterruptDecide(t)),
            [Worker(InterruptDone)] + ([Outside(Stop(j, t))] + ([Worker(ResolveFails(t))] + [])));
    RunCons(s, Worker(OpInterrupts(why)),
            [Worker(InterruptDecide(t))]
              + ([Worker(InterruptDone)] + ([Outside(Stop(j, t))] + ([Worker(ResolveFails(t))] + []))));
    assert LostStop(j, why, t) ==
      [Worker(OpInterrupts(why))] + ([Worker(InterruptDecide(t))] + ([Worker(InterruptDone)]
        + ([Outside(Stop(j, t))] + ([Worker(ResolveFails(t))] + []))));
  }
}
