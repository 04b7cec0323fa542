/**
 What the record of a job says after any event: the reason, the control request, the progress, the
 error, the result and the checkpoint that go with each status, and where they come from.
 */
module JobEngineRecords {
  import opened Common
  import opened JobRecord
  import opened JobEngine
  import opened JobEngineInv
  import opened JobEngineTheorems

  /** The event ends job `j`, which is not resumable, by one of its final writes. */
  predicate EndsSimple(s: State, e: Event, j: JobId) {
    (ByWorkerOn(s, e, j) && e.action.LongEnds?) || (e.InShort? && e.brief.ShortEnds? && e.brief.id == j)
  }

  function How(e: Event): Patch
    requires (e.Worker? && e.action.LongEnds?) || (e.InShort? && e.brief.ShortEnds?)
  {
    if e.Worker? then e.action.how else e.brief.how
  }

  /** `r` differs from `job` at most in status, progress, message, result, error, reason, control and bookkeeping. */
  ghost predicate SameJob(job: Job, r: Job) {
    && r.kind == job.kind && r.resourceKey == job.resourceKey
    && r.resumable == job.resumable && r.createdAt == job.createdAt
  }

  /** What the record says when event `e` has brought job `j` into another status. */
  ghost predicate Entered(s: State, e: Event, j: JobId, r: Job)
    requires j in s.jobs
  {
    var job := s.jobs[j];
    var mine := ByWorkerOn(s, e, j);
    && SameJob(job, r) && r.checkpoint == job.checkpoint && (!r.status.Completed? ==> r.result == job.result)
    && match r.status
       case Queued => false
       case Running =>
         if mine && (e.action.Top? || e.action.Wake?) then
           r.reason == "" && r.control == "" && r.error == None && r.progress == job.progress
         else r.reason == job.reason && r.control == job.control && r.error == job.error
       case Pausing =>
         && e.Outside? && r.progress == job.progress && r.error == job.error
         && ((e.call.Pause? && e.call.id == j && r.reason == "manual" && r.control == "pause")
             || (e.call.Shutdown? && e.call.id == j && s.closing && r.reason == "shutdown" && r.control == "shutdown"))
       case Paused =>
         && r.progress == job.progress
         && ((mine && s.worker.PauseSeen? && r.control == "" && r.error == job.error
              && r.reason == if s.worker.shutdown then "shutdown" else "manual")
             || (e.Outside? && e.call.Resume? && e.call.id == j && job.status.Interrupted?
                 && r.reason == "resume_requested" && r.control == "resume" && r.error == None))
       case Interrupted =>
         && mine && r.progress == job.progress && r.error == job.error
         && ((s.worker.InterruptSeen? && r.control == "" && r.reason == s.worker.why)
             || (s.worker.StopRollback? && r.control == "" && r.reason == "rollback_failed")
             || (s.worker.FailRollback? && r.control == job.control && r.reason == "rollback_failed"))
       case Stopping =>
         && ((mine && s.worker.StopMark?) || (e.Outside? && e.call.Stop? && e.call.id == j))
         && r.reason == "manual" && r.control == "stop" && r.progress == job.progress && r.error == job.error
       case Completed =>
         && r.progress == 1.0 && r.error == None
         && ((mine && e.action.CompleteWrite? && r.result == e.action.result && r.reason == "" && r.control == "")
             || (EndsSimple(s, e, j) && How(e).result == Put(r.result)
                 && r.reason == job.reason && r.control == job.control))
       case Failed =>
         && r.error.Some? && r.progress == job.progress && r.control == job.control
         && ((mine && e.action.ResolveFails? && r.reason == "manager_error")
             || (mine && e.action.FailWrite? && r.reason == "operation_failed" && r.error == Some(e.action.error))
             || (EndsSimple(s, e, j) && How(e).error == Put(r.error)
                 && (r.reason == job.reason || r.reason == "manager_error")))
       case Stopped =>
         mine && s.worker.StopUndone? && r.progress == 0.0 && r.reason == "manual" && r.control == "" && r.error == None
       case Cancelled =>
         && r.progress == 0.0
         && ((e.Outside? && e.call.Cancel? && e.call.id == j && r.reason == e.call.why && r.control == ""
              && r.error == None)
             || (j !in s.operations && (e.Acquire? || e.InShort?) && r.reason == "operation_missing"
                 && r.control == job.control && r.error == job.error))
  }

  /** The named fields of `r` are those of `job` after the update. */
  ghost predicate Updated(job: Job, p: Patch, r: Job) {
    && SameJob(job, r) && r.status == Value(p.status, job.status) && r.progress == Value(p.progress, job.progress)
    && r.result == Value(p.result, job.result) && r.error == Value(p.error, job.error)
    && r.checkpoint == Value(p.checkpoint, job.checkpoint) && r.reason == Value(p.reason, job.reason)
    && r.control == Value(p.control, job.control)
  }

  lemma EnteredByCall(s: State, c: Call, j: JobId, r: Job)
    requires CanCall(s, c) && j in s.jobs && Updated(s.jobs[j], WriteOn(s, Outside(c), j).patch, r)
    requires r.status != s.jobs[j].status
    ensures Entered(s, Outside(c), j, r)
  {
    hide MoveOf, AcquireShift, BriefShift;
  }

  lemma EnteredByAcquire(s: State, now: int, j: JobId, r: Job)
    requires CanAcquire(s) && j in s.jobs && Updated(s.jobs[j], WriteOn(s, Acquire(now), j).patch, r)
    requires r.status != s.jobs[j].status
    ensures Entered(s, Acquire(now), j, r)
  {
    hide MoveOf, BriefShift;
  }

  lemma EnteredByShort(s: State, b: Brief, j: JobId, r: Job)
    requires CanBrief(s, b) && j in s.jobs && Updated(s.jobs[j], WriteOn(s, InShort(b), j).patch, r)
    requires r.status != s.jobs[j].status
    ensures Entered(s, InShort(b), j, r)
  {
    hide MoveOf, AcquireShift;
  }

  lemma EnteredByOperation(s: State, a: Action, j: JobId, r: Job)
    requires CanAct(s, a) && j in s.jobs && s.worker.id == j && Updated(s.jobs[j], MoveOf(s, a).patch, r)
    requires r.status != s.jobs[j].status
    requires s.worker.AtTop? || s.worker.Waiting? || s.worker.InRun? || s.worker.InSimple?
    ensures Entered(s, Worker(a), j, r)
  {
  }

  lemma EnteredByEnding(s: State, a: Action, j: JobId, r: Job)
    requires CanAct(s, a) && j in s.jobs && s.worker.id == j && Updated(s.jobs[j], MoveOf(s, a).patch, r)
    requires r.status != s.jobs[j].status
    requires !(s.worker.AtTop? || s.worker.Waiting? || s.worker.InRun? || s.worker.InSimple?)
    ensures Entered(s, Worker(a), j, r)
  {
  }

  lemma NotMoved(s: State, e: Event, j: JobId, r: Job)
    requires Enabled(s, e) && j in s.jobs && (e.Fetch? || (e.Worker? && s.worker.id != j))
    requires Updated(s.jobs[j], WriteOn(s, e, j).patch, r)
    ensures r.status == s.jobs[j].status
  {
  }

  /** Every change of status of every job, by whatever event: its cause, and what the record then says. */
  lemma StatusChange(s: State, e: Event, j: JobId)
    requires Enabled(s, e) && j in s.jobs
    ensures j in Step(s, e).jobs
    ensures Step(s, e).jobs[j].status != s.jobs[j].status ==> Entered(s, e, j, Step(s, e).jobs[j])
  {
    hide Step, WriteOn, MoveOf, Entered, CanCall, CanAct, CanBrief, CanAcquire;
    OneUpdate(s, e, j);
    var w := WriteOn(s, e, j);
    var r := Step(s, e).jobs[j];
    ApplyMeaning(s.jobs[j], w.patch, w.now);
    hide Apply;
    if r.status != s.jobs[j].status {
      match e
      case Outside(c) => EnteredByCall(s, c, j, r);
      case Acquire(now) => EnteredByAcquire(s, now, j, r);
      case InShort(b) => EnteredByShort(s, b, j, r);
      case Fetch => NotMoved(s, e, j, r);
      case Worker(a) =>
        ByWorkerWrites(s, a, j);
        if s.worker.id != j {
          NotMoved(s, e, j, r);
        } else if s.worker.AtTop? || s.worker.Waiting? || s.worker.InRun? || s.worker.InSimple? {
          EnteredByOperation(s, a, j, r);
        } else {
          EnteredByEnding(s, a, j, r);
        }
    }
  }

  lemma ByWorkerWrites(s: State, a: Action, j: JobId)
    requires CanAct(s, a)
    ensures !s.worker.Idle? && (s.worker.id == j ==> WriteOn(s, Worker(a), j).patch == MoveOf(s, a).patch)
  {
    hide MoveOf;
  }

  // ----- Checkpoints and results -----

  /** The operation of job `j` saves a checkpoint. */
  predicate Saves(s: State, e: Event, j: JobId) {
    ByWorkerOn(s, e, j) && e.action.OpCheckpoint?
  }

  /** Job `j` is completed. */
  predicate Completes(s: State, e: Event, j: JobId) {
    || (ByWorkerOn(s, e, j) && e.action.CompleteWrite?)
    || (EndsSimple(s, e, j) && How(e).result.Put?)
  }

  lemma CallsSaveNothing(s: State, c: Call, j: JobId)
    requires CanCall(s, c)
    ensures var p := WriteOn(s, Outside(c), j).patch; p.checkpoint == Keep && p.result == Keep
  {
    hide MoveOf, AcquireShift, BriefShift;
  }

  lemma ShiftsSaveNothing(s: State, e: Event, j: JobId)
    requires Enabled(s, e) && (e.Acquire? || e.InShort? || e.Fetch?)
    ensures var p := WriteOn(s, e, j).patch;
      p.checkpoint == Keep && p.result == if EndsSimple(s, e, j) then How(e).result else Keep
  {
    hide MoveOf;
  }

  lemma MovesSave(s: State, a: Action)
    requires CanAct(s, a)
    ensures var p := MoveOf(s, a).patch;
      && p.checkpoint == (if a.OpCheckpoint? then Put(Some(a.c)) else Keep)
      && p.result == (if a.CompleteWrite? then Put(a.result) else if a.LongEnds? then a.how.result else Keep)
  {
  }

  /** No event but a saved checkpoint touches the checkpoint, and none but a completion the result. */
  lemma OnlySavesAndCompletions(s: State, e: Event, j: JobId)
    requires Enabled(s, e) && j in s.jobs
    ensures j in Step(s, e).jobs
    ensures var r := Step(s, e).jobs[j];
      && r.checkpoint == (if Saves(s, e, j) then Some(e.action.c) else s.jobs[j].checkpoint)
      && (!Completes(s, e, j) ==> r.result == s.jobs[j].result)
      && (Completes(s, e, j) ==>
            r.status.Completed? && r.result == if EndsSimple(s, e, j) then How(e).result.value else e.action.result)
  {
    hide Step, WriteOn, MoveOf, CanCall, CanAcquire, Apply;
    OneUpdate(s, e, j);
    var w := WriteOn(s, e, j);
    ApplyMeaning(s.jobs[j], w.patch, w.now);
    if Completes(s, e, j) {
      CompletionCompletes(s, e, j);
    }
    match e
    case Outside(c) => CallsSaveNothing(s, c, j);
    case Worker(a) =>
      ByWorkerWrites(s, a, j);
      OthersWriteNothing(s, a, j);
      MovesSave(s, a);
    case _ => ShiftsSaveNothing(s, e, j);
  }

  lemma OthersWriteNothing(s: State, a: Action, j: JobId)
    requires CanAct(s, a)
    ensures s.worker.id != j ==> WriteOn(s, Worker(a), j).patch == NOTHING
  {
    hide MoveOf;
  }

  lemma CompletionCompletes(s: State, e: Event, j: JobId)
    requires Enabled(s, e) && Completes(s, e, j)
    ensures WriteOn(s, e, j).patch.status == Put(Completed)
  {
  }

  /** A checkpoint lives on until the next one is saved, whatever happens to the job in between. */
  lemma {:induction false} CheckpointLivesOn(s: State, es: seq<Event>, j: JobId)
    requires Possible(s, es) && j in s.jobs && NeverSaves(s, es, j)
    ensures j in Run(s, es).jobs && Run(s, es).jobs[j].checkpoint == s.jobs[j].checkpoint
    decreases |es|
  {
    hide Step, Enabled, Saves;
    if es != [] {
      OnlySavesAndCompletions(s, es[0], j);
      CheckpointLivesOn(Step(s, es[0]), es[1..], j);
    }
  }

  ghost predicate NeverSaves(s: State, es: seq<Event>, j: JobId)
    requires Possible(s, es)
    decreases |es|
  {
    es == [] || (!Saves(s, es[0], j) && NeverSaves(Step(s, es[0]), es[1..], j))
  }

  /** After every run the checkpoint of a job is the newest its operation has saved. */
  lemma NewestCheckpoint(s: State, e: Event, es: seq<Event>, j: JobId)
    requires Enabled(s, e) && j in s.jobs && Saves(s, e, j)
    requires Possible(Step(s, e), es) && NeverSaves(Step(s, e), es, j)
    ensures j in Run(Step(s, e), es).jobs && Run(Step(s, e), es).jobs[j].checkpoint == Some(e.action.c)
  {
    hide Step, Enabled, NeverSaves, Possible, Run;
    OnlySavesAndCompletions(s, e, j);
    CheckpointLivesOn(Step(s, e), es, j);
  }

  // ----- Progress -----

  ghost predicate InRange(s: State) {
    forall j :: j in s.jobs && s.jobs[j].resumable ==> 0.0 <= s.jobs[j].progress <= 1.0
  }

  lemma CallProgress(s: State, c: Call, j: JobId)
    requires CanCall(s, c)
    ensures var p := WriteOn(s, Outside(c), j).patch.progress; p == Keep || p == Put(0.0)
  {
    hide MoveOf, AcquireShift, BriefShift;
  }

  lemma ShiftProgress(s: State, e: Event, j: JobId)
    requires Domains(s) && Enabled(s, e) && (e.Acquire? || e.InShort? || e.Fetch?) && j in s.jobs && s.jobs[j].resumable
    ensures WriteOn(s, e, j).patch.progress == Keep
  {
    hide MoveOf;
  }

  lemma MoveProgress(s: State, a: Action)
    requires Domains(s) && CanAct(s, a) && s.jobs[s.worker.id].resumable
    ensures var p := MoveOf(s, a).patch.progress; p.Put? ==> 0.0 <= p.value <= 1.0
    ensures a.OpProgress? ==>
              MoveOf(s, a).patch.progress == Put(if a.p < 0.0 then 0.0 else if a.p > 1.0 then 1.0 else a.p)
  {
  }

  lemma JobProgress(s: State, e: Event, j: JobId)
    requires Domains(s) && Enabled(s, e) && j in s.jobs && s.jobs[j].resumable && 0.0 <= s.jobs[j].progress <= 1.0
    ensures j in Step(s, e).jobs && Step(s, e).jobs[j].resumable && 0.0 <= Step(s, e).jobs[j].progress <= 1.0
  {
    hide Step, WriteOn, MoveOf, CanCall, CanAcquire, Apply, Domains;
    OneUpdate(s, e, j);
    var w := WriteOn(s, e, j);
    ApplyMeaning(s.jobs[j], w.patch, w.now);
    match e
    case Outside(c) => CallProgress(s, c, j);
    case Worker(a) =>
      ByWorkerWrites(s, a, j);
      OthersWriteNothing(s, a, j);
      if s.worker.id == j {
        MoveProgress(s, a);
      }
    case _ => ShiftProgress(s, e, j);
  }

  lemma StartsAtZero(s: State, c: Call, j: JobId)
    requires CanCall(s, c) && j !in s.jobs && j in AfterCall(s, c).jobs
    ensures var r := AfterCall(s, c).jobs[j]; r.progress == 0.0 && r.checkpoint == None && r.result == None
  {
    hide Apply;
  }

  lemma NewProgress(s: State, e: Event, j: JobId)
    requires Enabled(s, e) && j !in s.jobs && j in Step(s, e).jobs
    ensures Step(s, e).jobs[j].progress == 0.0
  {
    hide Apply, Do, MoveOf, AfterCall, Shifted, BriefShift, AcquireShift;
    match e
    case Outside(c) => StartsAtZero(s, c, j);
    case Fetch =>
    case Acquire(now) => ShiftFrame(s, s.worker.id, AcquireShift(s, now));
    case Worker(a) => DoFrame(s, MoveOf(s, a));
    case InShort(b) => ShiftFrame(s, b.id, BriefShift(s, b));
  }

  /** The progress of a job that can be resumed is between 0 and 1 in every state of every run, whatever it reports. */
  lemma {:induction false} ProgressStaysInRange(s: State, es: seq<Event>)
    requires Inv(s) && Possible(s, es) && InRange(s)
    ensures InRange(Run(s, es))
    decreases |es|
  {
    hide Inv, Step, Enabled;
    if es != [] {
      var r := Step(s, es[0]);
      InvDomains(s);
      forall j | j in r.jobs && r.jobs[j].resumable ensures 0.0 <= r.jobs[j].progress <= 1.0 {
        if j in s.jobs {
          OneUpdateKind(s, es[0], j);
          JobProgress(s, es[0], j);
        } else {
          NewProgress(s, es[0], j);
        }
      }
      StepKeepsInv(s, es[0]);
      ProgressStaysInRange(r, es[1..]);
    }
  }

  lemma InvDomains(s: State)
    requires Inv(s)
    ensures Domains(s)
  {
    hide Records, Domains, Operations, Remembered, Queueing, Locking, Transitions, Statuses, Served, Requests,
         DataInv, StartOrder;
  }

  lemma OneUpdateKind(s: State, e: Event, j: JobId)
    requires Enabled(s, e) && j in s.jobs
    ensures j in Step(s, e).jobs && SameJob(s.jobs[j], Step(s, e).jobs[j])
  {
    hide Step, WriteOn, Apply;
    OneUpdate(s, e, j);
    ApplyMeaning(s.jobs[j], WriteOn(s, e, j).patch, WriteOn(s, e, j).now);
  }

  // ----- Locks -----

  /** Two jobs have the same lock exactly if they name the same resource, or both name none. */
  lemma LocksApart(a: Job, b: Job)
    ensures var x := if a.resourceKey == None || a.resourceKey == Some("") then Some("__global__") else a.resourceKey;
      var y := if b.resourceKey == None || b.resourceKey == Some("") then Some("__global__") else b.resourceKey;
      LockKey(a) == LockKey(b) <==> x == y
  {
  }

  /** A job can take its lock exactly when no job executes on the same resource. */
  lemma EntersWhenFree(s: State, j: JobId)
    requires Inv(s) && j in s.jobs && (s.worker == Fetched(j) || (j in s.shorts && s.shorts[j].ShortWait?))
    ensures (if s.worker == Fetched(j) then Enabled(s, Acquire(0)) else Enabled(s, InShort(ShortAcquire(j, 0)))) <==>
            forall k :: k in s.jobs && Executes(s, k) ==> LockKey(s.jobs[k]) != LockKey(s.jobs[j])
  {
    hide Records, Domains, Operations, Remembered, Queueing, Transitions, Statuses, Served, Requests, DataInv,
         StartOrder;
    hide LockKey, Executes;
  }
}
