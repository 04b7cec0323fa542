/**
 How jobs get on when nothing comes in between: from the start of a job to its operation, and from
 there to each of its ends. These runs are possible from every state of the engine that allows them.
 */
module JobEngineLives {
  import opened Common
  import opened JobRecord
  import opened JobEngine
  import opened JobEngineInv
  import opened JobEngineTheorems
  import opened JobSteps
  import opened JobEnginePauses

  // ----- Completion -----

  lemma ReturnStep(s: State, j: JobId)
    requires With(s, j, InRun(j))
    ensures Enabled(s, Worker(OpReturns))
    ensures var r := Step(s, Worker(OpReturns)); With(r, j, Returned(j)) && r == s.(worker := Returned(j))
  {
    hide Inv, Step, CanCall, CanAct, Apply, Do, LockKey, RecordInv, DbAt, RolledBack;
    StepKeepsInvIf(s, Worker(OpReturns));
    InvLocks(s);
    OperationIs(s, "", "");
  }

  lemma CheckStep(s: State, j: JobId)
    requires With(s, j, Returned(j)) && j !in s.transition && j !in s.requests
    ensures Enabled(s, Worker(CompleteCheck))
    ensures var r := Step(s, Worker(CompleteCheck));
      With(r, j, Checked(j)) && r == s.(worker := Checked(j), transition := s.transition[j := ByWorker])
  {
    hide Inv, Step, CanCall, CanAct, Apply, Do, LockKey, RecordInv, DbAt;
    StepKeepsInvIf(s, Worker(CompleteCheck));
    EndingCan(s, None, 0);
    CheckIs(s);
  }

  lemma CompleteStep(s: State, j: JobId, result: Option<string>, t: int)
    requires With(s, j, Checked(j)) && j in s.transition && s.transition[j] == ByWorker
    ensures Enabled(s, Worker(CompleteWrite(result, t)))
    ensures var r := Step(s, Worker(CompleteWrite(result, t)));
      && With(r, j, Written(j)) && r == s.(jobs := s.jobs[j := r.jobs[j]], worker := Written(j))
      && r.jobs[j].status.Completed? && r.jobs[j].progress == 1.0 && r.jobs[j].result == result
      && r.jobs[j].error == None && r.jobs[j].reason == "" && r.jobs[j].control == ""
      && r.jobs[j].checkpoint == s.jobs[j].checkpoint && r.jobs[j].attempts == s.jobs[j].attempts
      && r.jobs[j].resourceKey == s.jobs[j].resourceKey
  {
    hide Inv, Step, CanCall, CanAct, Apply, Do, LockKey, RecordInv, DbAt;
    StepKeepsInvIf(s, Worker(CompleteWrite(result, t)));
    EndingCan(s, result, t);
    CompleteIs(s, result, t);
    ApplyMeaning(s.jobs[j], CompletePatch(result), t);
    assert s.transition[j := ByWorker] == s.transition;
  }

  lemma LeaveStep(s: State, j: JobId)
    requires With(s, j, Written(j)) && j in s.transition && s.transition[j] == ByWorker
    ensures Enabled(s, Worker(CompleteRelease))
    ensures var r := Step(s, Worker(CompleteRelease));
      r == s.(worker := Idle, execution := s.execution - {LockKey(s.jobs[j])}, transition := s.transition - {j})
  {
    hide Inv, Step, CanCall, CanAct, Apply, Do, LockKey, RecordInv, DbAt;
    EndingCan(s, None, 0);
    LeaveCompletedIs(s);
    LeaveIs(s, false);
  }

  function CompletionRun(j: JobId, result: Option<string>, t: int): seq<Event> {
    [Worker(OpReturns), Worker(CompleteCheck), Worker(CompleteWrite(result, t)), Worker(CompleteRelease)]
  }

  /** The job `j` is all that has changed; the worker is free, and so is the lock of the job. */
  ghost predicate Over(s: State, r: State, j: JobId)
    requires j in s.jobs
  {
    && j in r.jobs && r.jobs == s.jobs[j := r.jobs[j]]
    && r.worker.Idle? && r.execution == s.execution - {LockKey(s.jobs[j])}
    && r.transition == s.transition && r.abandoned == s.abandoned && r.queue == s.queue && r.shorts == s.shorts
  }

  lemma OverAlso(s: State, a: State, r: State, j: JobId)
    requires j in s.jobs && j in a.jobs && a.jobs == s.jobs[j := a.jobs[j]]
    requires LockKey(a.jobs[j]) == LockKey(s.jobs[j]) && a.execution == s.execution && a.transition == s.transition
    requires a.abandoned == s.abandoned && a.queue == s.queue && a.shorts == s.shorts && Over(a, r, j)
    ensures Over(s, r, j)
  {
    hide LockKey;
  }

  /** An operation that returns with nothing requested completes its job. */
  lemma ReturnCompletes(s: State, j: JobId, result: Option<string>, t: int)
    requires With(s, j, InRun(j)) && j !in s.requests && j !in s.transition
    ensures Possible(s, CompletionRun(j, result, t))
    ensures var r := Run(s, CompletionRun(j, result, t));
      && Over(s, r, j) && r.requests == s.requests && r.db == s.db
      && r.jobs[j].status.Completed? && r.jobs[j].progress == 1.0 && r.jobs[j].result == result
      && r.jobs[j].error == None && r.jobs[j].reason == "" && r.jobs[j].control == ""
      && r.jobs[j].checkpoint == s.jobs[j].checkpoint && r.jobs[j].attempts == s.jobs[j].attempts
  {
    hide Inv, Step, Enabled, Possible, Run;
    var es := CompletionRun(j, result, t);
    ReturnStep(s, j);
    var s1 := Step(s, es[0]);
    CheckStep(s1, j);
    var s2 := Step(s1, es[1]);
    CompleteStep(s2, j, result, t);
    var s3 := Step(s2, es[2]);
    LeaveStep(s3, j);
    Four(s, es[0], es[1], es[2], es[3]);
    assert s2.transition - {j} == s.transition;
  }

  // ----- Rollbacks -----

  /** What a rollback that succeeds leaves in the database of `j`, and in no other one. */
  ghost predicate RolledTo(s: State, r: State, j: JobId, v: Content)
    requires j in s.jobs
  {
    var key := LockKey(s.jobs[j]);
    && DbAt(r, key) == (if j in s.before && j in s.left && s.left[j] == DbAt(s, key) then s.before[j] else v)
    && forall k :: k != key ==> DbAt(r, k) == DbAt(s, k)
  }

  lemma RolledAlso(s: State, a: State, b: State, r: State, j: JobId, v: Content)
    requires j in s.jobs && j in a.jobs && LockKey(a.jobs[j]) == LockKey(s.jobs[j]) && RolledTo(a, b, j, v)
    requires a.db == s.db && a.before == s.before && a.left == s.left && r.db == b.db
    ensures RolledTo(s, r, j, v)
  {
    hide LockKey;
    forall k ensures DbAt(r, k) == DbAt(b, k) && DbAt(a, k) == DbAt(s, k) {
    }
  }

  lemma FailStep(s: State, j: JobId)
    requires With(s, j, InRun(j))
    ensures Enabled(s, Worker(OpFails))
    ensures var r := Step(s, Worker(OpFails)); With(r, j, FailRollback(j)) && r == s.(worker := FailRollback(j))
  {
    hide Inv, Step, CanCall, CanAct, Apply, Do, LockKey, RecordInv, DbAt, RolledBack;
    StepKeepsInvIf(s, Worker(OpFails));
    InvLocks(s);
    OperationIs(s, "", "");
  }

  lemma FailUndoStep(s: State, j: JobId, v: Content)
    requires With(s, j, FailRollback(j))
    ensures Enabled(s, Worker(FailUndo(v)))
    ensures var r := Step(s, Worker(FailUndo(v)));
      With(r, j, FailUndone(j)) && r == s.(worker := FailUndone(j), db := r.db, left := r.left) && RolledTo(s, r, j, v)
  {
    hide Inv, Step, CanCall, CanAct, Apply, Do, LockKey, RecordInv;
    StepKeepsInvIf(s, Worker(FailUndo(v)));
    InvLocks(s);
    FailCan(s, v, "", 0);
    FailUndoIs(s, v);
  }

  lemma FailWriteStep(s: State, j: JobId, error: string, t: int)
    requires With(s, j, FailUndone(j)) && j !in s.transition
    ensures Enabled(s, Worker(FailWrite(error, t)))
    ensures var r := Step(s, Worker(FailWrite(error, t)));
      && Over(s, r, j) && r.requests == s.requests && r.db == s.db
      && r.jobs[j].status.Failed? && r.jobs[j].reason == "operation_failed" && r.jobs[j].error == Some(error)
      && r.jobs[j].control == s.jobs[j].control && r.jobs[j].result == s.jobs[j].result
  {
    hide Inv, Step, CanCall, CanAct, Apply, Do, RecordInv;
    InvLocks(s);
    FailCan(s, "", error, t);
    FailWriteIs(s, error, t);
    ApplyMeaning(s.jobs[j], FailedPatch(OPERATION_FAILED, error), t);
    LeaveIs(Patched(s, j, FailedPatch(OPERATION_FAILED, error), t), false);
  }

  function FailureRun(j: JobId, v: Content, error: string, t: int): seq<Event> {
    [Worker(OpFails), Worker(FailUndo(v)), Worker(FailWrite(error, t))]
  }

  /** An operation that raises is rolled back, and its job fails. */
  lemma ErrorFails(s: State, j: JobId, v: Content, error: string, t: int)
    requires With(s, j, InRun(j)) && j !in s.transition
    ensures Possible(s, FailureRun(j, v, error, t))
    ensures var r := Run(s, FailureRun(j, v, error, t));
      && Over(s, r, j) && r.requests == s.requests && RolledTo(s, r, j, v)
      && r.jobs[j].status.Failed? && r.jobs[j].reason == "operation_failed" && r.jobs[j].error == Some(error)
  {
    hide Inv, Step, Enabled, LockKey, RolledTo, Over, Possible, Run;
    var es := FailureRun(j, v, error, t);
    FailStep(s, j);
    var s1 := Step(s, es[0]);
    FailUndoStep(s1, j, v);
    var s2 := Step(s1, es[1]);
    FailWriteStep(s2, j, error, t);
    OverAlso(s, s2, Step(s2, es[2]), j);
    RolledAlso(s, s1, s2, Step(s2, es[2]), j, v);
    Three(s, es[0], es[1], es[2]);
  }

  // ----- Stops -----

  lemma StopTaken(s: State, j: JobId, t: int)
    requires With(s, j, s.worker) && j !in s.transition
    requires s.jobs[j].status.Running? || s.jobs[j].status.Pausing? || IsPaused(s.jobs[j].status)
    ensures Enabled(s, Outside(Stop(j, t)))
    ensures var r := Step(s, Outside(Stop(j, t)));
      && With(r, j, s.worker) && Requested(r, j, StopRequest) && r.jobs[j].resourceKey == s.jobs[j].resourceKey
      && r == s.(jobs := s.jobs[j := r.jobs[j]], requests := s.requests[j := StopRequest],
                 transition := s.transition[j := ByStop])
      && r.jobs[j].status.Stopping? && r.jobs[j].reason == "manual" && r.jobs[j].control == "stop"
  {
    hide Inv, Step, CanCall, CanAct, Apply, Do, LockKey, RecordInv, DbAt;
    StepKeepsInvIf(s, Outside(Stop(j, t)));
    StopIs(s, j, t);
    ApplyMeaning(s.jobs[j], STOP_PATCH, t);
  }

  lemma StopReleased(s: State, j: JobId)
    requires With(s, j, s.worker) && j in s.transition && s.transition[j] == ByStop
    ensures Enabled(s, Outside(Release(j)))
    ensures var r := Step(s, Outside(Release(j)));
      With(r, j, s.worker) && r == s.(transition := s.transition - {j}, events := s.events + {j})
  {
    hide Inv, Step, CanAct, Apply, Do, LockKey, RecordInv, DbAt;
    StepKeepsInvIf(s, Outside(Release(j)));
    ReleaseIs(s, j);
  }

  /** A stop is seen at a control point by a running operation, and at once by a worker that waits with the job. */
  lemma StopSeen(s: State, j: JobId, t: int)
    requires With(s, j, s.worker) && Requested(s, j, StopRequest)
    requires s.worker == InRun(j) || (s.worker == Waiting(j) && j in s.events)
    ensures var e := Worker(if s.worker == InRun(j) then OpControlPoint else Wake(t));
      && Enabled(s, e) && With(Step(s, e), j, StopMark(j))
      && Step(s, e) == s.(worker := StopMark(j), events := Step(s, e).events)
  {
    hide Inv, Step, CanCall, CanAct, Apply, Do, LockKey, RecordInv, DbAt;
    InvLocks(s);
    if s.worker == InRun(j) {
      StepKeepsInvIf(s, Worker(OpControlPoint));
      OperationCan(s, 0.0, "", "", None, None, 0);
      ControlPointIs(s);
    } else {
      StepKeepsInvIf(s, Worker(Wake(t)));
      StartCan(s, t);
      WakeIs(s, t);
      BeginIs(s, t, true);
    }
  }

  lemma StopMarked(s: State, j: JobId, t: int)
    requires With(s, j, StopMark(j))
    ensures Enabled(s, Worker(MarkStopping(t)))
    ensures var r := Step(s, Worker(MarkStopping(t)));
      && With(r, j, StopRollback(j)) && r == s.(jobs := s.jobs[j := r.jobs[j]], worker := StopRollback(j))
      && r.jobs[j].status.Stopping? && r.jobs[j].resourceKey == s.jobs[j].resourceKey
  {
    hide Inv, Step, CanCall, CanAct, Apply, Do, LockKey, RecordInv, DbAt;
    StepKeepsInvIf(s, Worker(MarkStopping(t)));
    InvLocks(s);
    StopCan(s, "", t);
    MarkStoppingIs(s, t);
    ApplyMeaning(s.jobs[j], STOP_PATCH, t);
  }

  lemma StopUndoStep(s: State, j: JobId, v: Content)
    requires With(s, j, StopRollback(j))
    ensures Enabled(s, Worker(StopUndo(v)))
    ensures var r := Step(s, Worker(StopUndo(v)));
      With(r, j, StopUndone(j)) && r == s.(worker := StopUndone(j), db := r.db, left := r.left) && RolledTo(s, r, j, v)
  {
    hide Inv, Step, CanCall, CanAct, Apply, Do, LockKey, RecordInv;
    StepKeepsInvIf(s, Worker(StopUndo(v)));
    InvLocks(s);
    StopCan(s, v, 0);
    StopUndoIs(s, v);
  }

  lemma StopWriteStep(s: State, j: JobId, t: int)
    requires With(s, j, StopUndone(j)) && j !in s.transition
    ensures Enabled(s, Worker(StopWrite(t)))
    ensures var r := Step(s, Worker(StopWrite(t)));
      && Over(s, r, j) && r.requests == s.requests - {j} && r.db == s.db
      && r.jobs[j].status.Stopped? && r.jobs[j].reason == "manual" && r.jobs[j].control == ""
      && r.jobs[j].progress == 0.0 && r.jobs[j].error == None
  {
    hide Inv, Step, CanCall, CanAct, Apply, Do, RecordInv;
    InvLocks(s);
    StopCan(s, "", t);
    StopWriteIs(s, t);
    ApplyMeaning(s.jobs[j], STOPPED_PATCH, t);
    LeaveIs(Patched(s.(requests := s.requests - {j}), j, STOPPED_PATCH, t), false);
  }

  function StopTail(v: Content, t: int): seq<Event> {
    [Worker(MarkStopping(t)), Worker(StopUndo(v)), Worker(StopWrite(t))]
  }

  lemma StopGoesOn(s: State, j: JobId, v: Content, t: int)
    requires With(s, j, StopMark(j)) && j !in s.transition
    ensures Possible(s, StopTail(v, t))
    ensures var r := Run(s, StopTail(v, t));
      && Over(s, r, j) && r.requests == s.requests - {j} && RolledTo(s, r, j, v)
      && r.jobs[j].status.Stopped? && r.jobs[j].reason == "manual" && r.jobs[j].control == ""
      && r.jobs[j].progress == 0.0 && r.jobs[j].error == None
  {
    hide Inv, Step, Enabled, LockKey, RolledTo, Over, Possible, Run;
    var es := StopTail(v, t);
    StopMarked(s, j, t);
    var s1 := Step(s, es[0]);
    StopUndoStep(s1, j, v);
    var s2 := Step(s1, es[1]);
    StopWriteStep(s2, j, t);
    SameKey(s, s1, j);
    OverAlso(s, s2, Step(s2, es[2]), j);
    RolledAlso(s, s1, s2, Step(s2, es[2]), j, v);
    Three(s, es[0], es[1], es[2]);
  }

  lemma SameKey(s: State, r: State, j: JobId)
    requires j in s.jobs && j in r.jobs && r.jobs[j].resourceKey == s.jobs[j].resourceKey
    ensures LockKey(r.jobs[j]) == LockKey(s.jobs[j])
  {
  }

  /** The stop of the job `j` is accepted, and the worker takes it up: at once if it waits with the job. */
  function StopHead(j: JobId, running: bool, t: int): seq<Event> {
    [Outside(Stop(j, t)), Outside(Release(j)), Worker(if running then OpControlPoint else Wake(t))]
  }

  lemma StopArrives(s: State, j: JobId, t: int)
    requires With(s, j, s.worker) && (s.worker == InRun(j) || s.worker == Waiting(j)) && j !in s.transition
    requires s.jobs[j].status.Running? || s.jobs[j].status.Pausing? || IsPaused(s.jobs[j].status)
    ensures Possible(s, StopHead(j, s.worker.InRun?, t))
    ensures var r := Run(s, StopHead(j, s.worker.InRun?, t));
      && With(r, j, StopMark(j)) && r.jobs[j].resourceKey == s.jobs[j].resourceKey
      && r == s.(worker := StopMark(j), jobs := s.jobs[j := r.jobs[j]], requests := s.requests[j := StopRequest],
                 events := r.events)
  {
    hide Inv, Step, Enabled, LockKey, Possible, Run;
    var es := StopHead(j, s.worker.InRun?, t);
    StopTaken(s, j, t);
    var s1 := Step(s, es[0]);
    StopReleased(s1, j);
    var s2 := Step(s1, es[1]);
    StopSeen(s2, j, t);
    assert s1.transition - {j} == s.transition;
    Three(s, es[0], es[1], es[2]);
  }

  /** A stop of a running job, or of one that rests with the worker, is carried out by a rollback. */
  lemma StopStops(s: State, j: JobId, v: Content, t: int)
    requires With(s, j, s.worker) && (s.worker == InRun(j) || s.worker == Waiting(j)) && j !in s.transition
    requires s.jobs[j].status.Running? || s.jobs[j].status.Pausing? || IsPaused(s.jobs[j].status)
    ensures Possible(s, StopHead(j, s.worker.InRun?, t) + StopTail(v, t))
    ensures var r := Run(s, StopHead(j, s.worker.InRun?, t) + StopTail(v, t));
      && Over(s, r, j) && r.requests == s.requests - {j} && RolledTo(s, r, j, v)
      && r.jobs[j].status.Stopped? && r.jobs[j].reason == "manual" && r.jobs[j].control == ""
      && r.jobs[j].progress == 0.0 && r.jobs[j].error == None
  {
    hide Inv, Step, Enabled, StopHead, StopTail, LockKey, RolledTo, Over, Possible, Run;
    StopArrives(s, j, t);
    var m := Run(s, StopHead(j, s.worker.InRun?, t));
    StopGoesOn(m, j, v, t);
    RunThen(s, StopHead(j, s.worker.InRun?, t), StopTail(v, t));
    SameKey(s, m, j);
    var r := Run(m, StopTail(v, t));
    OverAlso(s, m, r, j);
    RolledAlso(s, m, r, r, j, v);
    assert m.requests - {j} == s.requests - {j};
  }

  // ----- Interruptions -----

  lemma InterruptStep(s: State, j: JobId, why: string)
    requires With(s, j, InRun(j))
    ensures Enabled(s, Worker(OpInterrupts(why)))
    ensures var r := Step(s, Worker(OpInterrupts(why)));
      With(r, j, InterruptSeen(j, why)) && r == s.(worker := InterruptSeen(j, why))
  {
    hide Inv, Step, CanCall, CanAct, Apply, Do, LockKey, RecordInv, DbAt, RolledBack;
    StepKeepsInvIf(s, Worker(OpInterrupts(why)));
    InvLocks(s);
    OperationIs(s, "", why);
  }

  lemma InterruptDecided(s: State, j: JobId, why: string, t: int)
    requires With(s, j, InterruptSeen(j, why)) && !Requested(s, j, StopRequest) && j !in s.transition
    ensures Enabled(s, Worker(InterruptDecide(t)))
    ensures var r := Step(s, Worker(InterruptDecide(t)));
      && With(r, j, InterruptWritten(j)) && Keeps(s, r, j) && r.jobs[j].attempts == s.jobs[j].attempts
      && r.jobs[j].status.Interrupted? && r.jobs[j].reason == why && r.jobs[j].control == ""
  {
    hide Inv, Step, CanCall, CanAct, Apply, Do, LockKey, RecordInv, DbAt;
    StepKeepsInvIf(s, Worker(InterruptDecide(t)));
    EndingCan(s, None, t);
    InterruptDecideIs(s, t);
    ApplyMeaning(s.jobs[j], StatusPatch(Interrupted, why, ""), t);
  }

  lemma InterruptStands(s: State, j: JobId)
    requires With(s, j, InterruptWritten(j))
    ensures Enabled(s, Worker(InterruptDone))
    ensures var r := Step(s, Worker(InterruptDone));
      With(r, j, AtTop(j)) && Keeps(s, r, j) && r.jobs == s.jobs && j !in r.requests
  {
    hide Inv, Step, CanCall, CanAct, Apply, Do, LockKey, RecordInv, DbAt;
    StepKeepsInvIf(s, Worker(InterruptDone));
    EndingCan(s, None, 0);
    InterruptDoneIs(s);
  }

  function InterruptionRun(j: JobId, why: string, t: int): seq<Event> {
    [Worker(OpInterrupts(why)), Worker(InterruptDecide(t)), Worker(InterruptDone), Worker(Top(t))]
  }

  /**
   An operation that is interrupted leaves its job at rest with the worker, under the reason it gave, with
   nothing requested, and over its checkpoint and its database; from there a resume runs it on.
   */
  lemma InterruptedJobRests(s: State, j: JobId, why: string, t: int)
    requires With(s, j, InRun(j)) && !Requested(s, j, StopRequest) && j !in s.transition
    ensures Possible(s, InterruptionRun(j, why, t))
    ensures var r := Run(s, InterruptionRun(j, why, t));
      && With(r, j, Waiting(j)) && Keeps(s, r, j) && j !in r.requests && r.jobs[j].attempts == s.jobs[j].attempts
      && r.jobs[j].status.Interrupted? && r.jobs[j].reason == why && r.jobs[j].control == ""
  {
    hide Inv, Step, Enabled, Keeps, Possible, Run;
    var es := InterruptionRun(j, why, t);
    InterruptStep(s, j, why);
    var s1 := Step(s, es[0]);
    InterruptDecided(s1, j, why, t);
    var s2 := Step(s1, es[1]);
    InterruptStands(s2, j);
    var s3 := Step(s2, es[2]);
    PauseWaits(s3, j, t);
    var s4 := Step(s3, es[3]);
    Four(s, es[0], es[1], es[2], es[3]);
    KeptAlong(s1, s2, s3, j);
    KeptAlong(s1, s3, s4, j);
    assert Keeps(s, s4, j) by { SameKept(s, s1, s4, j); }
  }

  lemma SameKept(s: State, a: State, r: State, j: JobId)
    requires Keeps(a, r, j) && a == s.(worker := a.worker)
    ensures Keeps(s, r, j)
  {
  }

  // ----- Beginnings -----

  /** A state in which the long lane has nothing to do. */
  ghost predicate AtRest(s: State) {
    Inv(s) && s.worker.Idle? && s.queue == []
  }

  lemma NewIsUnknown(s: State, j: JobId)
    requires Inv(s) && j !in s.jobs
    ensures j !in s.requests && j !in s.shorts && j !in s.operations
  {
    hide Records, Remembered, Queueing, Locking, Transitions, Statuses, Served, Requests, DataInv, StartOrder;
  }

  lemma NewJobEnters(s: State, j: JobId, job: Job, kind: string, key: Option<string>, resumable: bool, long: bool,
                     t: int)
    requires AtRest(s) && j !in s.jobs && job == NewJob(kind, key, resumable, t) && LockKey(job) !in s.execution
    requires resumable || long
    ensures Enabled(s, Outside(Start(j, kind, key, resumable, long, t)))
    ensures var s1 := Step(s, Outside(Start(j, kind, key, resumable, long, t)));
      && Enabled(s1, Fetch) && Inv(s1) && Inv(Step(s1, Fetch)) && Enabled(Step(s1, Fetch), Acquire(t))
      && Step(s1, Fetch) == s.(jobs := s.jobs[j := job], enqueued := s.enqueued + [j], served := s.served + 1,
                               operations := if resumable then s.operations else s.operations + {j},
                               worker := Fetched(j))
  {
    hide Inv, Step, CanAct, Apply, Do, LockKey, RecordInv, DbAt;
    StepKeepsInvIf(s, Outside(Start(j, kind, key, resumable, long, t)));
    StartIs(s, j, kind, key, resumable, long, t);
    NewJobIs(kind, key, resumable, t);
    var s1 := Step(s, Outside(Start(j, kind, key, resumable, long, t)));
    StepKeepsInvIf(s1, Fetch);
    FetchIs(s1);
  }

  lemma FetchIs(s: State)
    requires CanFetch(s) && s.queue[0] in s.jobs && !IsTerminal(s.jobs[s.queue[0]].status)
    ensures Step(s, Fetch) == s.(queue := s.queue[1..], served := s.served + 1, worker := Fetched(s.queue[0]))
  {
  }

  lemma FirstAttempt(s: State, j: JobId, t: int)
    requires Inv(s) && s.worker == Fetched(j) && j in s.jobs && s.jobs[j].resumable && s.jobs[j].status.Queued?
    requires s.jobs[j].attempts == 0 && s.jobs[j].startedAt == None && j !in s.requests && CanAcquire(s)
    ensures var m := Step(s, Acquire(t)); Enabled(m, Worker(Top(t)))
    ensures var r := Step(Step(s, Acquire(t)), Worker(Top(t))); var key := LockKey(s.jobs[j]);
      && With(r, j, InRun(j)) && r.jobs == s.jobs[j := r.jobs[j]] && r.execution == s.execution[key := j]
      && r.db == s.db && j in r.before && r.before[j] == DbAt(s, key) && r.requests == s.requests
      && r.jobs[j].status.Running? && r.jobs[j].attempts == 1 && r.jobs[j].startedAt == Some(t)
      && r.jobs[j].reason == "" && r.jobs[j].control == "" && r.jobs[j].error == None
      && r.jobs[j].progress == s.jobs[j].progress
  {
    hide Inv, Step, CanCall, CanAct, Apply, Do, LockKey, RecordInv;
    StepKeepsInvIf(s, Acquire(t));
    AcquireResumableIs(s, t);
    var m := Step(s, Acquire(t));
    StepKeepsInvIf(m, Worker(Top(t)));
    InvLocks(m);
    StartCan(m, t);
    TopIs(m, t);
    BeginIs(m, t, false);
    ApplyMeaning(s.jobs[j], RUN_PATCH, t);
    ApplyKeepsBooks(s.jobs[j], RUN_PATCH, t);
    assert s.requests - {j} == s.requests;
    assert BeginRun(m, j, t).(clear := false) == BeginRun(m, j, t);
  }

  function FirstRunOf(j: JobId, kind: string, key: Option<string>, long: bool, t: int): seq<Event> {
    [Outside(Start(j, kind, key, true, long, t)), Fetch, Acquire(t), Worker(Top(t))]
  }

  /**
   A resumable job that is started while the long lane has nothing to do, and nobody works on its
   resource, runs: its first attempt, under its lock, over the database as it is.
   */
  lemma NewJobRuns(s: State, j: JobId, kind: string, key: Option<string>, long: bool, t: int)
    requires AtRest(s) && j !in s.jobs && LockKey(NewJob(kind, key, true, t)) !in s.execution
    ensures Possible(s, FirstRunOf(j, kind, key, long, t))
    ensures var r := Run(s, FirstRunOf(j, kind, key, long, t)); var lock := LockKey(NewJob(kind, key, true, t));
      && With(r, j, InRun(j)) && r.jobs == s.jobs[j := r.jobs[j]] && r.execution == s.execution[lock := j]
      && r.db == s.db && j in r.before && r.before[j] == DbAt(s, lock) && r.requests == s.requests
      && r.jobs[j].status.Running? && r.jobs[j].attempts == 1 && r.jobs[j].startedAt == Some(t)
      && r.jobs[j].reason == "" && r.jobs[j].control == "" && r.jobs[j].error == None && r.jobs[j].progress == 0.0
  {
    hide Inv, Step, Enabled, LockKey, Possible, Run;
    var es := FirstRunOf(j, kind, key, long, t);
    var job := NewJob(kind, key, true, t);
    NewJobIs(kind, key, true, t);
    NewIsUnknown(s, j);
    NewJobEnters(s, j, job, kind, key, true, long, t);
    var s1 := Step(s, es[0]);
    var s2 := Step(s1, es[1]);
    AcquireIsEnabled(s2, t);
    FirstAttempt(s2, j, t);
    var s3 := Step(s2, es[2]);
    Four(s, es[0], es[1], es[2], es[3]);
  }

  lemma AcquireIsEnabled(s: State, t: int)
    ensures Enabled(s, Acquire(t)) <==> CanAcquire(s)
  {
  }

  // ----- Jobs that are not resumable -----

  function ShortRunOf(j: JobId, kind: string, key: Option<string>, result: Option<string>, t: int): seq<Event> {
    [Outside(Start(j, kind, key, false, false, t)), InShort(ShortAcquire(j, t)),
     InShort(ShortEnds(j, SimpleDone(result), t))]
  }

  lemma ShortStarts(s: State, j: JobId, kind: string, key: Option<string>, t: int)
    requires Inv(s) && j !in s.jobs && LockKey(NewJob(kind, key, false, t)) !in s.execution
    ensures Enabled(s, Outside(Start(j, kind, key, false, false, t)))
    ensures var s1 := Step(s, Outside(Start(j, kind, key, false, false, t)));
      && Enabled(s1, InShort(ShortAcquire(j, t)))
      && var r := Step(s1, InShort(ShortAcquire(j, t)));
         && j in r.jobs && r == s.(jobs := s.jobs[j := r.jobs[j]], shorts := s.shorts[j := ShortRun],
                                   execution := s.execution[LockKey(NewJob(kind, key, false, t)) := j])
         && r.jobs[j].status.Running? && r.jobs[j].attempts == 1 && r.jobs[j].startedAt == Some(t)
         && r.jobs[j].finishedAt == None && r.jobs[j].resourceKey == key
  {
    hide Inv, Step, LockKey, Apply;
    var job := NewJob(kind, key, false, t);
    NewJobIs(kind, key, false, t);
    NewIsUnknown(s, j);
    StartIs(s, j, kind, key, false, false, t);
    var s1 := Step(s, Outside(Start(j, kind, key, false, false, t)));
    ShortStartIs(s1, j, t);
    ApplyMeaning(job, SIMPLE_RUN_PATCH, t);
    ApplyKeepsBooks(job, SIMPLE_RUN_PATCH, t);
    assert s.operations + {j} - {j} == s.operations;
  }

  lemma ShortIsOver(s: State, j: JobId, result: Option<string>, t: int)
    requires j in s.jobs && j in s.shorts && s.shorts[j].ShortRun? && s.jobs[j].status.Running?
    ensures var e := InShort(ShortEnds(j, SimpleDone(result), t));
      && Enabled(s, e)
      && var r := Step(s, e);
         && j in r.jobs && r == s.(jobs := s.jobs[j := r.jobs[j]], shorts := s.shorts - {j},
                                   execution := s.execution - {LockKey(s.jobs[j])})
         && r.jobs[j].status.Completed? && r.jobs[j].result == result && r.jobs[j].progress == 1.0
         && r.jobs[j].error == None && r.jobs[j].attempts == s.jobs[j].attempts
         && r.jobs[j].startedAt == s.jobs[j].startedAt && r.jobs[j].finishedAt == Some(t)
  {
    hide Step, LockKey, Apply;
    ShortEndsIs(s, j, SimpleDone(result), t);
    ApplyMeaning(s.jobs[j], SimpleDone(result), t);
    ApplyKeepsBooks(s.jobs[j], SimpleDone(result), t);
  }

  /** A short job whose resource nobody works on is done at once, whatever the worker does; its lock is free again. */
  lemma ShortJobIsDone(s: State, j: JobId, kind: string, key: Option<string>, result: Option<string>, t: int)
    requires Inv(s) && j !in s.jobs && LockKey(NewJob(kind, key, false, t)) !in s.execution
    ensures Possible(s, ShortRunOf(j, kind, key, result, t))
    ensures var r := Run(s, ShortRunOf(j, kind, key, result, t));
      && j in r.jobs && r == s.(jobs := s.jobs[j := r.jobs[j]])
      && r.jobs[j].status.Completed? && r.jobs[j].result == result && r.jobs[j].progress == 1.0
      && r.jobs[j].attempts == 1 && r.jobs[j].startedAt == Some(t) && r.jobs[j].finishedAt == Some(t)
  {
    hide Inv, Step, Enabled, LockKey, Possible, Run, NewJob, SimpleDone;
    var es := ShortRunOf(j, kind, key, result, t);
    NewIsUnknown(s, j);
    ShortStarts(s, j, kind, key, t);
    var s1 := Step(s, es[0]);
    var s2 := Step(s1, es[1]);
    ShortIsOver(s2, j, result, t);
    KeyOfNew(s2.jobs[j], kind, key, t);
    var s3 := Step(s2, es[2]);
    Three(s, es[0], es[1], es[2]);
    AsBefore(s, s2, s3, j, LockKey(s2.jobs[j]));
  }

  lemma AsBefore(s: State, m: State, r: State, j: JobId, key: string)
    requires j !in s.shorts && key !in s.execution && j in m.jobs && j in r.jobs
    requires m == s.(jobs := s.jobs[j := m.jobs[j]], shorts := s.shorts[j := ShortRun],
                     execution := s.execution[key := j])
    requires r == m.(jobs := m.jobs[j := r.jobs[j]], shorts := m.shorts - {j}, execution := m.execution - {key})
    ensures r == s.(jobs := s.jobs[j := r.jobs[j]])
  {
    assert r.execution == s.execution && r.shorts == s.shorts;
  }

  lemma KeyOfNew(job: Job, kind: string, key: Option<string>, t: int)
    requires job.resourceKey == key
    ensures LockKey(job) == LockKey(NewJob(kind, key, false, t))
  {
  }

  function LongRunOf(j: JobId, kind: string, key: Option<string>, result: Option<string>, t: int): seq<Event> {
    [Outside(Start(j, kind, key, false, true, t)), Fetch, Acquire(t), Worker(LongEnds(SimpleDone(result), t))]
  }

  lemma LongStarts(s: State, j: JobId, t: int)
    requires Inv(s) && s.worker == Fetched(j) && j in s.jobs && !s.jobs[j].resumable && s.jobs[j].status.Queued?
    requires s.jobs[j].attempts == 0 && s.jobs[j].startedAt == None && j in s.operations && CanAcquire(s)
    requires s.jobs[j].finishedAt == None
    ensures var r := Step(s, Acquire(t));
      && Inv(r) && j in r.jobs && r.worker == InSimple(j)
      && r == s.(jobs := s.jobs[j := r.jobs[j]], shorts := s.shorts - {j}, worker := InSimple(j),
                 execution := s.execution[LockKey(s.jobs[j]) := j], operations := s.operations - {j},
                 starts := s.starts + [s.served - 1])
      && r.jobs[j].status.Running? && r.jobs[j].attempts == 1 && r.jobs[j].startedAt == Some(t)
      && r.jobs[j].finishedAt == None && r.jobs[j].resourceKey == s.jobs[j].resourceKey
  {
    hide Inv, Step, CanCall, CanAct, Apply, Do, LockKey, RecordInv;
    StepKeepsInvIf(s, Acquire(t));
    AcquireSimpleIs(s, t);
    ApplyMeaning(s.jobs[j], SIMPLE_RUN_PATCH, t);
    ApplyKeepsBooks(s.jobs[j], SIMPLE_RUN_PATCH, t);
  }

  lemma LongIsOver(s: State, j: JobId, result: Option<string>, t: int)
    requires Inv(s) && s.worker == InSimple(j) && j in s.jobs && s.jobs[j].status.Running?
    ensures var e := Worker(LongEnds(SimpleDone(result), t));
      && Enabled(s, e)
      && var r := Step(s, e);
         && Over(s, r, j) && r.db == s.db && r.operations == s.operations
         && r.jobs[j].status.Completed? && r.jobs[j].result == result && r.jobs[j].progress == 1.0
         && r.jobs[j].error == None && r.jobs[j].attempts == s.jobs[j].attempts
         && r.jobs[j].startedAt == s.jobs[j].startedAt && r.jobs[j].finishedAt == Some(t)
  {
    hide Inv, Step, CanCall, CanAct, Apply, Do, RecordInv, SimpleDone;
    InvLocks(s);
    DoneIsAnEnding(result);
    LongEndsIs(s, SimpleDone(result), t);
    ApplyMeaning(s.jobs[j], SimpleDone(result), t);
    ApplyKeepsBooks(s.jobs[j], SimpleDone(result), t);
    LeaveIs(Patched(s, j, SimpleDone(result), t), false);
    DoneSays(result);
  }

  lemma DoneIsAnEnding(result: Option<string>)
    ensures SimpleEnding(SimpleDone(result))
  {
  }

  lemma DoneSays(result: Option<string>)
    ensures var p := SimpleDone(result);
      && p.status == Put(Completed) && p.progress == Put(1.0) && p.result == Put(result) && p.error == Put(None)
      && p.checkpoint == Keep && p.reason == Keep && p.control == Keep
  {
  }

  lemma LongWorks(s: State, j: JobId, result: Option<string>, t: int)
    requires Inv(s) && s.worker == Fetched(j) && j in s.jobs && !s.jobs[j].resumable && s.jobs[j].status.Queued?
    requires s.jobs[j].attempts == 0 && s.jobs[j].startedAt == None && j in s.operations && CanAcquire(s)
    requires s.jobs[j].finishedAt == None && LockKey(s.jobs[j]) !in s.execution
    ensures var es := [Acquire(t), Worker(LongEnds(SimpleDone(result), t))];
      && Possible(s, es)
      && var r := Run(s, es);
         && j in r.jobs && r.jobs == s.jobs[j := r.jobs[j]] && r.worker.Idle? && r.queue == s.queue
         && r.execution == s.execution && r.db == s.db && r.operations == s.operations - {j}
         && r.jobs[j].status.Completed? && r.jobs[j].result == result && r.jobs[j].progress == 1.0
         && r.jobs[j].attempts == 1 && r.jobs[j].startedAt == Some(t) && r.jobs[j].finishedAt == Some(t)
  {
    hide Inv, Step, Enabled, LockKey, SimpleDone, CanAcquire;
    var es := [Acquire(t), Worker(LongEnds(SimpleDone(result), t))];
    AcquireIsEnabled(s, t);
    LongStarts(s, j, t);
    var m := Step(s, es[0]);
    LongIsOver(m, j, result, t);
    SameKey(s, m, j);
    Follow(m, es[1], es[1..]);
    Follow(s, es[0], es);
  }

  /**
   A job that is not resumable and goes to the long lane, while that has nothing to do and nobody works on
   its resource, is done, and worker and lock are free again.
   */
  lemma LongJobIsDone(s: State, j: JobId, kind: string, key: Option<string>, result: Option<string>, t: int)
    requires AtRest(s) && j !in s.jobs && LockKey(NewJob(kind, key, false, t)) !in s.execution
    ensures Possible(s, LongRunOf(j, kind, key, result, t))
    ensures var r := Run(s, LongRunOf(j, kind, key, result, t));
      && j in r.jobs && r.jobs == s.jobs[j := r.jobs[j]] && r.worker.Idle? && r.queue == []
      && r.execution == s.execution && r.db == s.db && r.operations == s.operations
      && r.jobs[j].status.Completed? && r.jobs[j].result == result && r.jobs[j].progress == 1.0
      && r.jobs[j].attempts == 1 && r.jobs[j].startedAt == Some(t) && r.jobs[j].finishedAt == Some(t)
  {
    hide Inv, Step, Enabled, LockKey, SimpleDone, NewJob, CanAcquire;
    var es := LongRunOf(j, kind, key, result, t);
    NewJobIs(kind, key, false, t);
    NewIsUnknown(s, j);
    NewJobEnters(s, j, NewJob(kind, key, false, t), kind, key, false, true, t);
    var s1 := Step(s, es[0]);
    var s2 := Step(s1, es[1]);
    AcquireIsEnabled(s2, t);
    LongWorks(s2, j, result, t);
    assert es[2..] == [Acquire(t), Worker(LongEnds(SimpleDone(result), t))];
    Follow(s1, es[1], es[1..]);
    Follow(s, es[0], es);
    assert s.operations + {j} - {j} == s.operations;
  }

  // ----- What an operation reports -----

  /** Progress is written clamped and as `running`, a checkpoint as it is, with what comes along. */
  lemma ReportsAreWritten(s: State, j: JobId, p: real, m: string, c: string, value: Option<real>,
                          note: Option<string>, t: int)
    requires With(s, j, InRun(j))
    ensures Enabled(s, Worker(OpProgress(p, m, t))) && Enabled(s, Worker(OpCheckpoint(c, value, note, t)))
    ensures var r := Step(s, Worker(OpProgress(p, m, t)));
      && j in r.jobs && r == s.(jobs := s.jobs[j := r.jobs[j]])
      && r.jobs[j].status.Running? && r.jobs[j].message == m
      && r.jobs[j].progress == (if p < 0.0 then 0.0 else if p > 1.0 then 1.0 else p)
      && r.jobs[j].checkpoint == s.jobs[j].checkpoint && r.jobs[j].reason == s.jobs[j].reason
      && r.jobs[j].control == s.jobs[j].control && r.jobs[j].error == s.jobs[j].error
    ensures var r := Step(s, Worker(OpCheckpoint(c, value, note, t)));
      && j in r.jobs && r == s.(jobs := s.jobs[j := r.jobs[j]])
      && r.jobs[j].checkpoint == Some(c) && r.jobs[j].status == s.jobs[j].status
      && r.jobs[j].message == (if note.Some? then note.value else s.jobs[j].message)
      && r.jobs[j].progress == (if value.None? then s.jobs[j].progress
                                else if value.value < 0.0 then 0.0 else if value.value > 1.0 then 1.0 else value.value)
      && r.jobs[j].reason == s.jobs[j].reason && r.jobs[j].control == s.jobs[j].control
  {
    hide Inv, Step, CanCall, CanAct, Apply, Do, LockKey, RecordInv, DbAt;
    InvLocks(s);
    OperationCan(s, p, m, c, value, note, t);
    ProgressIs(s, p, m, t);
    CheckpointIs(s, c, value, note, t);
    ApplyMeaning(s.jobs[j], ProgressPatch(Clamp(p), m), t);
    ApplyMeaning(s.jobs[j], CheckpointPatch(c, value, note), t);
  }
}
