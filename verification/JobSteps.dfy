/**
 What each event of the engine does, as one record update; the methods of the job manager are proved
 against these.
 */
module JobSteps {
  import opened Common
  import opened JobRecord
  import opened JobEngine

  /** The worker has a job and does not hold its transition lock. */
  predicate Unlocked(s: State) {
    !s.worker.Idle? && s.worker.id in s.jobs && (s.worker.id in s.transition ==> s.transition[s.worker.id] != ByWorker)
  }

  /** The worker has a transition lock only between its check and its release. */
  ghost predicate LockInv(transition: map<JobId, Holder>, w: Worker) {
    forall id :: id in transition && transition[id].ByWorker? ==>
      (w.Checked? || w.Written? || w.PauseWritten? || w.InterruptWritten?) && w.id == id
  }

  function Unlock(s: State): map<JobId, Holder>
    requires !s.worker.Idle?
  {
    if s.worker.id in s.transition && s.transition[s.worker.id] == ByWorker then s.transition - {s.worker.id}
      else s.transition
  }

  /** The engine's `Update` without its contract. */
  function Patched(s: State, id: JobId, p: Patch, now: int): State
    requires id in s.jobs
  {
    s.(jobs := s.jobs[id := Apply(s.jobs[id], p, now)])
  }

  lemma PatchedNothing(s: State, id: JobId, now: int)
    requires id in s.jobs
    ensures Patched(s, id, NOTHING, now) == s
  {
    assert s.jobs[id := s.jobs[id]] == s.jobs;
  }

  lemma Wrote(s: State, m: Move)
    requires Unlocked(s) && !m.begin && m.content.None?
    ensures Do(s, m) == Patched(s, s.worker.id, m.patch, m.now).(
        worker := m.next,
        execution := if m.next.Idle? then s.execution - {LockKey(s.jobs[s.worker.id])} else s.execution,
        transition := if m.hold then s.transition[s.worker.id := ByWorker] else s.transition,
        requests := if m.drop then s.requests - {s.worker.id} else s.requests,
        events := if m.clear then s.events - {s.worker.id} else s.events,
        abandoned := if m.abandon then s.abandoned + {s.worker.id} else s.abandoned)
  {
    hide Apply;
  }

  lemma Went(s: State, m: Move)
    requires Unlocked(s) && m == Goto(m.next).(hold := m.hold)
    ensures Do(s, m) == s.(
        worker := m.next,
        execution := if m.next.Idle? then s.execution - {LockKey(s.jobs[s.worker.id])} else s.execution,
        transition := if m.hold then s.transition[s.worker.id := ByWorker] else s.transition)
  {
    hide Apply;
    PatchedNothing(s, s.worker.id, m.now);
  }

  // ----- Calls -----

  lemma StartIs(s: State, id: JobId, kind: string, key: Option<string>, resumable: bool, long: bool, now: int)
    requires id !in s.jobs
    ensures CanCall(s, Start(id, kind, key, resumable, long, now))
    ensures Step(s, Outside(Start(id, kind, key, resumable, long, now))) ==
            AddJob(s, id, NewJob(kind, key, resumable, now), resumable || long)
  {
  }

  lemma PauseIs(s: State, id: JobId, now: int)
    ensures CanCall(s, Pause(id, now)) <==>
            id in s.jobs && id !in s.transition && s.jobs[id].resumable && s.jobs[id].status.Running?
    ensures CanCall(s, Pause(id, now)) ==>
              Step(s, Outside(Pause(id, now))) == Patched(s, id, PAUSE_PATCH, now).(
                requests := s.requests[id := PauseRequest], transition := s.transition[id := ByPause])
  {
    hide Apply;
  }

  lemma ResumeIs(s: State, id: JobId, now: int)
    ensures CanCall(s, Resume(id, now)) <==> id in s.jobs && s.jobs[id].resumable && IsPaused(s.jobs[id].status)
    ensures CanCall(s, Resume(id, now)) ==>
              Step(s, Outside(Resume(id, now))) == Patched(s, id, RESUME_PATCH, now).(
                requests := s.requests - {id}, signals := s.signals + multiset{id})
  {
    hide Apply;
  }

  lemma StopIs(s: State, id: JobId, now: int)
    ensures CanCall(s, Stop(id, now)) <==>
            id in s.jobs && id !in s.transition && s.jobs[id].resumable
            && (s.jobs[id].status.Running? || s.jobs[id].status.Pausing? || IsPaused(s.jobs[id].status))
    ensures CanCall(s, Stop(id, now)) ==>
              Step(s, Outside(Stop(id, now))) == Patched(s, id, STOP_PATCH, now).(
                requests := s.requests[id := StopRequest], transition := s.transition[id := ByStop])
  {
    hide Apply;
  }

  lemma CancelIs(s: State, id: JobId, why: string, now: int)
    ensures CanCall(s, Cancel(id, why, now)) <==> id in s.jobs && s.jobs[id].status.Queued?
    ensures CanCall(s, Cancel(id, why, now)) ==>
              Step(s, Outside(Cancel(id, why, now))) ==
                Patched(s.(operations := s.operations - {id}), id, CancelPatch(why), now)
  {
    hide Apply;
  }

  lemma ShutdownIs(s: State, id: JobId, now: int)
    ensures CanCall(s, Shutdown(id, now)) <==>
            s.closing && id in s.jobs && s.jobs[id].resumable
              && (s.jobs[id].status.Running? || s.jobs[id].status.Pausing?)
    ensures CanCall(s, Shutdown(id, now)) ==>
              Step(s, Outside(Shutdown(id, now))) == Patched(s, id, SHUTDOWN_PATCH, now).(
                requests := s.requests[id := ShutdownRequest], signals := s.signals + multiset{id})
  {
    hide Apply;
  }

  lemma ReleaseIs(s: State, id: JobId)
    requires CanCall(s, Release(id))
    ensures id in s.transition
    ensures Step(s, Outside(Release(id))) == s.(
              transition := s.transition - {id},
              events := if s.transition[id].ByStop? then s.events + {id} else s.events)
  {
  }

  lemma SignalIs(s: State, id: JobId)
    requires CanCall(s, Signal(id))
    ensures Step(s, Outside(Signal(id))) == s.(events := s.events + {id}, signals := s.signals - multiset{id})
  {
  }

  // ----- The worker -----

  lemma AcquireResumableIs(s: State, now: int)
    requires CanAcquire(s) && s.jobs[s.worker.id].resumable
    ensures var id := s.worker.id;
      Step(s, Acquire(now)) ==
        s.(shorts := s.shorts - {id}, worker := AtTop(id), execution := s.execution[LockKey(s.jobs[id]) := id])
  {
    hide Apply, LockKey;
    PatchedNothing(s, s.worker.id, 0);
  }

  lemma AcquireSimpleIs(s: State, now: int)
    requires CanAcquire(s) && !s.jobs[s.worker.id].resumable
    ensures var id := s.worker.id; var lane := s.(shorts := s.shorts - {id});
      Step(s, Acquire(now)) ==
        if id in s.operations then
          Patched(lane, id, SIMPLE_RUN_PATCH, now).(
            worker := InSimple(id), execution := s.execution[LockKey(s.jobs[id]) := id],
            operations := s.operations - {id}, starts := s.starts + [s.served - 1])
        else Patched(lane, id, MISSING_PATCH, now).(worker := Idle)
  {
    hide Apply, LockKey;
  }

  /** An attempt begins: the control request is dropped, and the first time the database is remembered. */
  function Begun(s: State, now: int): State
    requires !s.worker.Idle? && s.worker.id in s.jobs
  {
    var id := s.worker.id;
    var first := s.jobs[id].attempts == 0;
    var content := DbAt(s, LockKey(s.jobs[id]));
    Patched(s, id, RUN_PATCH, now).(
      worker := InRun(id),
      requests := s.requests - {id},
      starts := s.starts + [s.served - 1],
      before := if first then s.before[id := content] else s.before,
      left := if first then s.left[id := content] else s.left)
  }

  lemma BegunIs(s: State, now: int, clear: bool)
    requires Unlocked(s)
    ensures var cleared := if clear then s.(events := s.events - {s.worker.id}) else s;
      Do(s, Writes(InRun(s.worker.id), RUN_PATCH, now).(drop := true, begin := true, clear := clear))
        == Begun(cleared, now)
  {
    hide Apply, LockKey;
  }

  lemma BeginIs(s: State, now: int, clear: bool)
    requires (s.worker.AtTop? || s.worker.Waiting?) && s.worker.id in s.jobs && LockInv(s.transition, s.worker)
    ensures var id := s.worker.id;
      var cleared := if clear then s.(events := s.events - {id}) else s;
      Do(s, BeginRun(s, id, now).(clear := clear)) ==
        if Requested(s, id, StopRequest) then cleared.(worker := StopMark(id)) else Begun(cleared, now)
  {
    if Requested(s, s.worker.id, StopRequest) {
      hide Apply, LockKey;
      PatchedNothing(s, s.worker.id, 0);
    } else {
      BegunIs(s, now, clear);
    }
  }

  lemma TopIs(s: State, now: int)
    requires CanAct(s, Top(now)) && LockInv(s.transition, s.worker)
    ensures s.worker.AtTop? && s.worker.id in s.jobs
    ensures var id := s.worker.id;
      Step(s, Worker(Top(now))) ==
        if IsTerminal(s.jobs[id].status) then Do(s, Goto(Idle).(abandon := false))
        else if IsPaused(s.jobs[id].status) then s.(worker := Waiting(id))
        else Do(s, BeginRun(s, id, now))
  {
    hide Do, Apply, LockKey, DbAt;
    Went(s, Goto(Waiting(s.worker.id)));
  }

  lemma WakeIs(s: State, now: int)
    requires CanAct(s, Wake(now))
    ensures s.worker.Waiting? && s.worker.id in s.jobs
    ensures Step(s, Worker(Wake(now))) == Do(s, BeginRun(s, s.worker.id, now).(clear := true))
  {
    hide Do, Apply;
  }

  lemma ControlPointIs(s: State)
    requires CanAct(s, OpControlPoint) && LockInv(s.transition, s.worker)
    ensures s.worker.InRun? && s.worker.id in s.jobs
    ensures var id := s.worker.id;
      Step(s, Worker(OpControlPoint)) ==
        s.(worker := if id in s.requests then Signalled(s.requests[id], id) else InRun(id))
  {
    hide Do, Apply, Signalled, LockKey;
    var id := s.worker.id;
    Signals(s.requests, id);
    Went(s, MoveOf(s, OpControlPoint));
  }

  lemma Signals(requests: map<JobId, Request>, id: JobId)
    ensures id in requests ==> !Signalled(requests[id], id).Idle?
  {
  }

  lemma ProgressIs(s: State, value: real, message: string, now: int)
    requires CanAct(s, OpProgress(value, message, now)) && LockInv(s.transition, s.worker)
    ensures s.worker.InRun? && s.worker.id in s.jobs
    ensures Step(s, Worker(OpProgress(value, message, now))) ==
              Patched(s, s.worker.id, ProgressPatch(Clamp(value), message), now)
  {
    hide Do, Apply, LockKey;
    Wrote(s, MoveOf(s, OpProgress(value, message, now)));
  }

  lemma CheckpointIs(s: State, checkpoint: string, p: Option<real>, m: Option<string>, now: int)
    requires CanAct(s, OpCheckpoint(checkpoint, p, m, now)) && LockInv(s.transition, s.worker)
    ensures s.worker.InRun? && s.worker.id in s.jobs
    ensures Step(s, Worker(OpCheckpoint(checkpoint, p, m, now))) ==
            Patched(s, s.worker.id, CheckpointPatch(checkpoint, p, m), now)
  {
    hide Do, Apply, LockKey;
    Wrote(s, MoveOf(s, OpCheckpoint(checkpoint, p, m, now)));
  }

  lemma ResolveFailsIs(s: State, now: int)
    requires CanAct(s, ResolveFails(now)) && LockInv(s.transition, s.worker)
    ensures (s.worker.AtTop? || s.worker.Waiting?) && s.worker.id in s.jobs
    ensures var cleared := if s.worker.Waiting? then s.(events := s.events - {s.worker.id}) else s;
      Step(s, Worker(ResolveFails(now))) ==
        Do(Patched(cleared, s.worker.id, FailedPatch("manager_error", "resolver"), now), Goto(Idle).(abandon := false))
  {
    hide Apply, FailedPatch;
    var cleared := if s.worker.Waiting? then s.(events := s.events - {s.worker.id}) else s;
    var r := Patched(cleared, s.worker.id, FailedPatch("manager_error", "resolver"), now);
    ApplyMeaning(s.jobs[s.worker.id], FailedPatch("manager_error", "resolver"), now);
    assert LockKey(r.jobs[s.worker.id]) == LockKey(s.jobs[s.worker.id]);
    hide LockKey;
    LeaveIs(r, false);
    Wrote(s, MoveOf(s, ResolveFails(now)));
  }

  lemma CheckIs(s: State)
    requires CanAct(s, CompleteCheck)
    ensures s.worker.Returned? && s.worker.id in s.jobs && s.worker.id !in s.transition
    ensures var id := s.worker.id;
      Step(s, Worker(CompleteCheck)) ==
        if id in s.requests then s.(worker := Signalled(s.requests[id], id))
        else s.(worker := Checked(id), transition := s.transition[id := ByWorker])
  {
    hide Do, Apply, Signalled, LockKey;
    Signals(s.requests, s.worker.id);
    Went(s, MoveOf(s, CompleteCheck));
  }

  /** The steps taken while the worker holds the transition lock. */
  lemma CompleteIs(s: State, result: Option<string>, now: int)
    requires CanAct(s, CompleteWrite(result, now))
    ensures s.worker.Checked? && s.worker.id in s.jobs
    ensures Step(s, Worker(CompleteWrite(result, now))) == Patched(s, s.worker.id, CompletePatch(result), now).(
              worker := Written(s.worker.id), transition := s.transition[s.worker.id := ByWorker])
  {
    hide Apply, LockKey;
  }

  lemma LeaveIs(s: State, abandon: bool)
    requires !s.worker.Idle? && s.worker.id in s.jobs
    ensures Do(s, Goto(Idle).(abandon := abandon)) == s.(
              worker := Idle, execution := s.execution - {LockKey(s.jobs[s.worker.id])}, transition := Unlock(s),
              abandoned := if abandon then s.abandoned + {s.worker.id} else s.abandoned)
  {
    hide Apply, LockKey;
    PatchedNothing(s, s.worker.id, 0);
  }

  lemma LeaveCompletedIs(s: State)
    requires CanAct(s, CompleteRelease)
    ensures s.worker.Written? && s.worker.id in s.jobs
    ensures Step(s, Worker(CompleteRelease)) == Do(s, Goto(Idle).(abandon := false))
  {
    hide Do;
  }

  lemma PauseDecideIs(s: State, now: int)
    requires CanAct(s, PauseDecide(now))
    ensures s.worker.PauseSeen? && s.worker.id in s.jobs && s.worker.id !in s.transition
    ensures var id := s.worker.id;
      Step(s, Worker(PauseDecide(now))) ==
        if Requested(s, id, StopRequest) then s.(worker := StopMark(id))
        else Patched(s, id, StatusPatch(Paused, if s.worker.shutdown then "shutdown" else "manual", ""), now).(
               worker := PauseWritten(id, s.worker.shutdown), transition := s.transition[id := ByWorker])
  {
    hide Do, Apply, LockKey;
    var m := MoveOf(s, PauseDecide(now));
    if Requested(s, s.worker.id, StopRequest) {
      Went(s, m);
    } else {
      Wrote(s, m);
    }
  }

  lemma PauseDoneIs(s: State)
    requires CanAct(s, PauseDone)
    ensures s.worker.PauseWritten? && s.worker.id in s.jobs
    ensures var id := s.worker.id; var popped := s.(requests := s.requests - {id});
      Step(s, Worker(PauseDone)) ==
        if s.worker.shutdown then Do(popped, Goto(Idle).(abandon := true))
        else popped.(worker := AtTop(id), transition := Unlock(s))
  {
    hide Apply, LockKey;
    var popped := s.(requests := s.requests - {s.worker.id});
    PatchedNothing(s, s.worker.id, 0);
    PatchedNothing(popped, s.worker.id, 0);
  }

  lemma InterruptDecideIs(s: State, now: int)
    requires CanAct(s, InterruptDecide(now))
    ensures s.worker.InterruptSeen? && s.worker.id in s.jobs && s.worker.id !in s.transition
    ensures var id := s.worker.id;
      Step(s, Worker(InterruptDecide(now))) ==
        if Requested(s, id, StopRequest) then s.(worker := StopMark(id))
        else Patched(s, id, StatusPatch(Interrupted, s.worker.why, ""), now).(
               worker := InterruptWritten(id), transition := s.transition[id := ByWorker])
  {
    hide Do, Apply, LockKey;
    var m := MoveOf(s, InterruptDecide(now));
    if Requested(s, s.worker.id, StopRequest) {
      Went(s, m);
    } else {
      Wrote(s, m);
    }
  }

  lemma InterruptDoneIs(s: State)
    requires CanAct(s, InterruptDone)
    ensures s.worker.InterruptWritten? && s.worker.id in s.jobs
    ensures Step(s, Worker(InterruptDone)) == s.(
              requests := s.requests - {s.worker.id}, worker := AtTop(s.worker.id), transition := Unlock(s))
  {
    hide Apply, LockKey;
    PatchedNothing(s, s.worker.id, 0);
  }

  lemma MarkStoppingIs(s: State, now: int)
    requires CanAct(s, MarkStopping(now)) && LockInv(s.transition, s.worker)
    ensures s.worker.StopMark? && s.worker.id in s.jobs
    ensures Step(s, Worker(MarkStopping(now))) ==
              Patched(s, s.worker.id, STOP_PATCH, now).(worker := StopRollback(s.worker.id))
  {
    hide Do, Apply, LockKey;
    Wrote(s, MoveOf(s, MarkStopping(now)));
  }

  /** The database, and what is remembered of it, after a rollback that leaves `content`. */
  function RolledBack(s: State, content: Content): State
    requires !s.worker.Idle? && s.worker.id in s.jobs
  {
    s.(db := s.db[LockKey(s.jobs[s.worker.id]) := content],
       left := if s.worker.id in s.left then s.left[s.worker.id := content] else s.left)
  }

  lemma WroteContent(s: State, next: Worker, p: Patch, now: int, v: Content)
    requires Unlocked(s) && !next.Idle?
    ensures Do(s, Writes(next, p, now).(content := Some(v))) ==
            Patched(RolledBack(s, v), s.worker.id, p, now).(worker := next)
  {
    hide Apply, LockKey;
  }

  lemma WentWithContent(s: State, next: Worker, v: Content)
    requires Unlocked(s) && !next.Idle?
    ensures Do(s, Goto(next).(content := Some(v))) == RolledBack(s, v).(worker := next)
  {
    hide Do, Apply, LockKey;
    WroteContent(s, next, NOTHING, 0, v);
    PatchedNothing(RolledBack(s, v), s.worker.id, 0);
  }

  lemma StopUndoIs(s: State, v: Content)
    requires CanAct(s, StopUndo(v)) && LockInv(s.transition, s.worker)
    ensures s.worker.StopRollback? && s.worker.id in s.jobs
    ensures Step(s, Worker(StopUndo(v))) == RolledBack(s, Undone(s, s.worker.id, v)).(worker := StopUndone(s.worker.id))
  {
    hide Do, Apply, LockKey, Undone, RolledBack;
    WentWithContent(s, StopUndone(s.worker.id), Undone(s, s.worker.id, v));
  }

  lemma StopUndoFailsIs(s: State, v: Content, now: int)
    requires CanAct(s, StopUndoFails(v, now)) && LockInv(s.transition, s.worker)
    ensures s.worker.StopRollback? && s.worker.id in s.jobs
    ensures Step(s, Worker(StopUndoFails(v, now))) ==
            Patched(RolledBack(s, v), s.worker.id, StatusPatch(Interrupted, ROLLBACK_FAILED, ""), now).(
              worker := StopStuck(s.worker.id))
  {
    hide Do, Apply, LockKey, RolledBack, Patched;
    var p := StatusPatch(Interrupted, ROLLBACK_FAILED, "");
    WroteContent(s, StopStuck(s.worker.id), p, now, v);
  }

  /** A last write, with or without the request dropped, and leaving: one step of the engine, two of the program. */
  lemma WriteAndLeave(s: State, p: Patch, now: int, drop: bool)
    requires Unlocked(s)
    ensures var popped := if drop then s.(requests := s.requests - {s.worker.id}) else s;
      Do(s, Writes(Idle, p, now).(drop := drop)) ==
        Do(Patched(popped, s.worker.id, p, now), Goto(Idle).(abandon := false))
  {
    hide Apply;
    var popped := if drop then s.(requests := s.requests - {s.worker.id}) else s;
    var r := Patched(popped, s.worker.id, p, now);
    ApplyMeaning(s.jobs[s.worker.id], p, now);
    assert LockKey(r.jobs[s.worker.id]) == LockKey(s.jobs[s.worker.id]);
    hide LockKey;
    LeaveIs(r, false);
  }

  lemma StopWriteIs(s: State, now: int)
    requires CanAct(s, StopWrite(now)) && LockInv(s.transition, s.worker)
    ensures s.worker.StopUndone? && s.worker.id in s.jobs
    ensures Step(s, Worker(StopWrite(now))) ==
            Do(Patched(s.(requests := s.requests - {s.worker.id}), s.worker.id, STOPPED_PATCH, now),
               Goto(Idle).(abandon := false))
  {
    hide Do, Apply, LockKey;
    WriteAndLeave(s, STOPPED_PATCH, now, true);
  }

  lemma StopAbandonIs(s: State)
    requires CanAct(s, StopAbandon) && LockInv(s.transition, s.worker)
    ensures s.worker.StopStuck? && s.worker.id in s.jobs
    ensures Step(s, Worker(StopAbandon)) == Do(s.(requests := s.requests - {s.worker.id}), Goto(Idle).(abandon := true))
  {
    hide Apply, LockKey;
    PatchedNothing(s, s.worker.id, 0);
    PatchedNothing(s.(requests := s.requests - {s.worker.id}), s.worker.id, 0);
  }

  lemma FailUndoIs(s: State, v: Content)
    requires CanAct(s, FailUndo(v)) && LockInv(s.transition, s.worker)
    ensures s.worker.FailRollback? && s.worker.id in s.jobs
    ensures Step(s, Worker(FailUndo(v))) == RolledBack(s, Undone(s, s.worker.id, v)).(worker := FailUndone(s.worker.id))
  {
    hide Do, Apply, LockKey, Undone, RolledBack;
    WentWithContent(s, FailUndone(s.worker.id), Undone(s, s.worker.id, v));
  }

  lemma FailUndoFailsIs(s: State, v: Content, now: int)
    requires CanAct(s, FailUndoFails(v, now)) && LockInv(s.transition, s.worker)
    ensures s.worker.FailRollback? && s.worker.id in s.jobs
    ensures Step(s, Worker(FailUndoFails(v, now))) ==
            Patched(RolledBack(s, v), s.worker.id,
                    NOTHING.(status := Put(Interrupted), reason := Put(ROLLBACK_FAILED)), now).(
              worker := AtTop(s.worker.id))
  {
    hide Do, Apply, LockKey, RolledBack, Patched;
    var p := NOTHING.(status := Put(Interrupted), reason := Put(ROLLBACK_FAILED));
    WroteContent(s, AtTop(s.worker.id), p, now, v);
  }

  lemma FailWriteIs(s: State, error: string, now: int)
    requires CanAct(s, FailWrite(error, now)) && LockInv(s.transition, s.worker)
    ensures s.worker.FailUndone? && s.worker.id in s.jobs
    ensures Step(s, Worker(FailWrite(error, now))) ==
            Do(Patched(s, s.worker.id, FailedPatch(OPERATION_FAILED, error), now), Goto(Idle).(abandon := false))
  {
    hide Do, Apply, LockKey;
    WriteAndLeave(s, FailedPatch(OPERATION_FAILED, error), now, false);
  }

  // ----- Operations -----

  /** What an operation does to its database, and how it ends. */
  lemma OperationIs(s: State, v: Content, why: string)
    requires s.worker.InRun? && s.worker.id in s.jobs && LockInv(s.transition, s.worker)
    ensures CanAct(s, OpWrite(v)) && CanAct(s, OpReturns) && CanAct(s, OpInterrupts(why)) && CanAct(s, OpFails)
    ensures Step(s, Worker(OpWrite(v))) == RolledBack(s, v)
    ensures Step(s, Worker(OpReturns)) == s.(worker := Returned(s.worker.id))
    ensures Step(s, Worker(OpInterrupts(why))) == s.(worker := InterruptSeen(s.worker.id, why))
    ensures Step(s, Worker(OpFails)) == s.(worker := FailRollback(s.worker.id))
  {
    hide Step, CanAct, RolledBack;
    OperationWriteIs(s, v);
    OperationReturnsIs(s);
    OperationInterruptsIs(s, why);
    OperationFailsIs(s);
  }

  lemma OperationWriteIs(s: State, v: Content)
    requires s.worker.InRun? && s.worker.id in s.jobs && LockInv(s.transition, s.worker)
    ensures CanAct(s, OpWrite(v)) && Step(s, Worker(OpWrite(v))) == RolledBack(s, v)
  {
    hide Apply, LockKey, Do, RolledBack;
    ContentIs(s, v);
  }

  lemma OperationReturnsIs(s: State)
    requires s.worker.InRun? && s.worker.id in s.jobs && LockInv(s.transition, s.worker)
    ensures CanAct(s, OpReturns) && Step(s, Worker(OpReturns)) == s.(worker := Returned(s.worker.id))
  {
    hide Apply, LockKey, Do;
    Went(s, Goto(Returned(s.worker.id)));
  }

  lemma OperationInterruptsIs(s: State, why: string)
    requires s.worker.InRun? && s.worker.id in s.jobs && LockInv(s.transition, s.worker)
    ensures CanAct(s, OpInterrupts(why))
    ensures Step(s, Worker(OpInterrupts(why))) == s.(worker := InterruptSeen(s.worker.id, why))
  {
    hide Apply, LockKey, Do;
    Went(s, Goto(InterruptSeen(s.worker.id, why)));
  }

  lemma OperationFailsIs(s: State)
    requires s.worker.InRun? && s.worker.id in s.jobs && LockInv(s.transition, s.worker)
    ensures CanAct(s, OpFails) && Step(s, Worker(OpFails)) == s.(worker := FailRollback(s.worker.id))
  {
    hide Apply, LockKey, Do;
    Went(s, Goto(FailRollback(s.worker.id)));
  }

  lemma ContentIs(s: State, v: Content)
    requires Unlocked(s)
    ensures Do(s, Goto(s.worker).(content := Some(v))) == RolledBack(s, v)
  {
    hide Do, Apply, LockKey;
    WentWithContent(s, s.worker, v);
  }

  lemma LongIs(s: State, v: Content, value: real, message: string, now: int)
    requires s.worker.InSimple? && s.worker.id in s.jobs && LockInv(s.transition, s.worker)
    ensures CanAct(s, LongWrite(v)) && CanAct(s, LongProgress(value, message, now))
    ensures Step(s, Worker(LongWrite(v))) == RolledBack(s, v)
    ensures Step(s, Worker(LongProgress(value, message, now))) ==
              Patched(s, s.worker.id, ProgressPatch(value, message), now)
  {
    hide Apply, LockKey, Do;
    ContentIs(s, v);
    Wrote(s, Writes(InSimple(s.worker.id), ProgressPatch(value, message), now));
  }

  lemma LongEndsIs(s: State, how: Patch, now: int)
    requires s.worker.InSimple? && s.worker.id in s.jobs && LockInv(s.transition, s.worker) && SimpleEnding(how)
    ensures CanAct(s, LongEnds(how, now))
    ensures Step(s, Worker(LongEnds(how, now))) == Do(Patched(s, s.worker.id, how, now), Goto(Idle).(abandon := false))
  {
    hide Do, Apply, LockKey, SimpleEnding;
    WriteAndLeave(s, how, now, false);
  }

  // ----- The short lane -----

  lemma ShortRunsIs(s: State, id: JobId, v: Content, value: real, message: string, now: int)
    requires id in s.jobs && id in s.shorts && s.shorts[id].ShortRun?
    ensures CanBrief(s, ShortWrite(id, v)) && CanBrief(s, ShortProgress(id, value, message, now))
    ensures Step(s, InShort(ShortWrite(id, v))) == s.(db := s.db[LockKey(s.jobs[id]) := v])
    ensures Step(s, InShort(ShortProgress(id, value, message, now))) ==
              Patched(s, id, ProgressPatch(value, message), now)
  {
    hide Apply, LockKey;
    PatchedNothing(s, id, 0);
    assert s.shorts[id := ShortRun] == s.shorts;
  }

  lemma ShortStartIs(s: State, id: JobId, now: int)
    requires CanBrief(s, ShortAcquire(id, now)) && !IsTerminal(s.jobs[id].status) && id in s.operations
    ensures Step(s, InShort(ShortAcquire(id, now))) ==
            Patched(s, id, SIMPLE_RUN_PATCH, now).(
              execution := s.execution[LockKey(s.jobs[id]) := id], operations := s.operations - {id},
              shorts := s.shorts[id := ShortRun])
  {
    hide Apply, LockKey;
  }

  lemma ShortOverIs(s: State, id: JobId, now: int)
    requires CanBrief(s, ShortAcquire(id, now)) && (IsTerminal(s.jobs[id].status) || id !in s.operations)
    ensures Step(s, InShort(ShortAcquire(id, now))) ==
            (if IsTerminal(s.jobs[id].status) then s.(operations := s.operations - {id})
             else Patched(s, id, MISSING_PATCH, now)).(shorts := s.shorts - {id})
  {
    hide Apply, LockKey;
    PatchedNothing(s, id, 0);
  }

  lemma ShortEndsIs(s: State, id: JobId, how: Patch, now: int)
    requires CanBrief(s, ShortEnds(id, how, now))
    ensures id in s.jobs
    ensures Step(s, InShort(ShortEnds(id, how, now))) ==
            Patched(s, id, how, now).(execution := s.execution - {LockKey(s.jobs[id])}, shorts := s.shorts - {id})
  {
    hide Apply, LockKey, SimpleEnding;
  }

  // ----- When the worker can act, told by where it stands -----

  lemma StartCan(s: State, now: int)
    requires !s.worker.Idle? && s.worker.id in s.jobs
    ensures s.worker.AtTop? ==> CanAct(s, Top(now))
    ensures s.worker.Waiting? && s.worker.id in s.events ==> CanAct(s, Wake(now)) && CanAct(s, ResolveFails(now))
    ensures s.worker.AtTop? && !IsTerminal(s.jobs[s.worker.id].status) && !IsPaused(s.jobs[s.worker.id].status) ==>
              CanAct(s, ResolveFails(now))
  {
  }

  lemma OperationCan(s: State, value: real, message: string, checkpoint: string, p: Option<real>, m: Option<string>,
                     now: int)
    requires s.worker.InRun? && s.worker.id in s.jobs
    ensures CanAct(s, OpControlPoint) && CanAct(s, OpProgress(value, message, now))
    ensures CanAct(s, OpCheckpoint(checkpoint, p, m, now))
  {
  }

  lemma EndingCan(s: State, result: Option<string>, now: int)
    requires !s.worker.Idle? && s.worker.id in s.jobs
    ensures s.worker.Returned? && s.worker.id !in s.transition ==> CanAct(s, CompleteCheck)
    ensures s.worker.Checked? ==> CanAct(s, CompleteWrite(result, now))
    ensures s.worker.Written? ==> CanAct(s, CompleteRelease)
    ensures s.worker.PauseSeen? && s.worker.id !in s.transition ==> CanAct(s, PauseDecide(now))
    ensures s.worker.PauseWritten? ==> CanAct(s, PauseDone)
    ensures s.worker.InterruptSeen? && s.worker.id !in s.transition ==> CanAct(s, InterruptDecide(now))
    ensures s.worker.InterruptWritten? ==> CanAct(s, InterruptDone)
  {
  }

  lemma StopCan(s: State, v: Content, now: int)
    requires !s.worker.Idle? && s.worker.id in s.jobs
    ensures s.worker.StopMark? ==> CanAct(s, MarkStopping(now))
    ensures s.worker.StopRollback? ==> CanAct(s, StopUndo(v)) && CanAct(s, StopUndoFails(v, now))
    ensures s.worker.StopUndone? ==> CanAct(s, StopWrite(now))
    ensures s.worker.StopStuck? ==> CanAct(s, StopAbandon)
  {
  }

  lemma FailCan(s: State, v: Content, error: string, now: int)
    requires !s.worker.Idle? && s.worker.id in s.jobs
    ensures s.worker.FailRollback? ==> CanAct(s, FailUndo(v)) && CanAct(s, FailUndoFails(v, now))
    ensures s.worker.FailUndone? ==> CanAct(s, FailWrite(error, now))
  {
  }
}
