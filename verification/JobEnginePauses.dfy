/**
 What a pause means: which pauses are shutdowns, that only those let a job go, and that a paused job
 runs on when it is resumed.
 */
module JobEnginePauses {
  import opened Common
  import opened JobRecord
  import opened JobEngine
  import opened JobEngineInv
  import opened JobEngineTheorems
  import opened JobSteps

  // ----- Only a close makes a pause a shutdown -----

  /** The worker stands in a pause of `j` that it takes for a shutdown. */
  predicate ShutDown(w: Worker, j: JobId) {
    (w.PauseSeen? || w.PauseWritten?) && w.shutdown && w.id == j
  }

  /** A shutdown of `j` is asked for or under way. */
  predicate Leaving(s: State, j: JobId) {
    (j in s.requests && s.requests[j] == ShutdownRequest) || ShutDown(s.worker, j)
  }

  predicate AsksShutdown(e: Event, j: JobId) {
    e.Outside? && e.call.Shutdown? && e.call.id == j
  }

  /**
   What makes the worker take up a pause, and which one: the request of the job as it is then, seen at
   a control point of the operation or under the lock before completion.
   */
  lemma PauseIsAsAsked(s: State, e: Event, j: JobId, shutdown: bool)
    requires Enabled(s, e) && Step(s, e).worker == PauseSeen(j, shutdown) && s.worker != PauseSeen(j, shutdown)
    ensures s.worker == InRun(j) || s.worker == Returned(j)
    ensures j in s.requests && s.requests[j] == if shutdown then ShutdownRequest else PauseRequest
  {
    hide Do, MoveOf, AfterCall, Shifted, AcquireShift, BriefShift;
    match e
    case Outside(c) => CallFrame(s, c);
    case Fetch =>
    case Acquire(now) =>
      ShiftFrame(s, s.worker.id, AcquireShift(s, now));
      AcquiresNoPause(s, now);
    case Worker(a) =>
      DoFrame(s, MoveOf(s, a));
      MovesToPause(s, a, j, shutdown);
    case InShort(b) =>
      ShiftWaits(s, b);
      ShiftFrame(s, b.id, BriefShift(s, b));
  }

  lemma AcquiresNoPause(s: State, now: int)
    requires CanAcquire(s)
    ensures !AcquireShift(s, now).worker.PauseSeen?
  {
  }

  lemma MovesToPause(s: State, a: Action, j: JobId, shutdown: bool)
    requires CanAct(s, a) && MoveOf(s, a).next == PauseSeen(j, shutdown) && s.worker != PauseSeen(j, shutdown)
    ensures s.worker == InRun(j) || s.worker == Returned(j)
    ensures j in s.requests && s.requests[j] == if shutdown then ShutdownRequest else PauseRequest
  {
    hide LockKey, DbAt, Undone;
  }

  lemma LeavingCall(s: State, c: Call, j: JobId)
    requires CanCall(s, c) && Leaving(AfterCall(s, c), j)
    ensures Leaving(s, j) || (c.Shutdown? && c.id == j)
  {
    hide Apply, NewJob;
  }

  lemma LeavingMove(s: State, a: Action, j: JobId)
    requires CanAct(s, a) && Leaving(Do(s, MoveOf(s, a)), j)
    ensures Leaving(s, j)
  {
    hide Do, MoveOf;
    DoRequests(s, MoveOf(s, a), j);
    if ShutDown(MoveOf(s, a).next, j) && !ShutDown(s.worker, j) {
      MovesToShutdown(s, a, j);
    }
  }

  lemma DoRequests(s: State, m: Move, j: JobId)
    requires !s.worker.Idle? && s.worker.id in s.jobs
    ensures Do(s, m).worker == m.next
    ensures j in Do(s, m).requests ==> j in s.requests && Do(s, m).requests[j] == s.requests[j]
  {
    hide Apply, LockKey, DbAt;
  }

  lemma MovesToShutdown(s: State, a: Action, j: JobId)
    requires CanAct(s, a) && ShutDown(MoveOf(s, a).next, j) && !ShutDown(s.worker, j)
    ensures j in s.requests && s.requests[j] == ShutdownRequest
  {
    hide LockKey, DbAt, Undone;
  }

  lemma LeavingShift(s: State, k: JobId, x: Shift, j: JobId)
    requires k in s.jobs && Leaving(Shifted(s, k, x), j) && !ShutDown(x.worker, j)
    ensures Leaving(s, j)
  {
    hide Apply;
  }

  lemma LeavingStep(s: State, e: Event, j: JobId)
    requires Enabled(s, e) && Leaving(Step(s, e), j)
    ensures Leaving(s, j) || AsksShutdown(e, j)
  {
    hide Leaving, AfterCall, Do, MoveOf, Shifted;
    match e
    case Outside(c) => LeavingCall(s, c, j);
    case Fetch => LeavingFetch(s, j);
    case Acquire(now) =>
      NeverShutDown(s, now, j);
      LeavingShift(s, s.worker.id, AcquireShift(s, now), j);
    case Worker(a) => LeavingMove(s, a, j);
    case InShort(b) =>
      ShiftWaits(s, b);
      if ShutDown(s.worker, j) {
        assert Leaving(s, j) by { LeavingSo(s, j); }
      } else {
        LeavingShift(s, b.id, BriefShift(s, b), j);
      }
  }

  lemma LeavingSo(s: State, j: JobId)
    requires ShutDown(s.worker, j)
    ensures Leaving(s, j)
  {
  }

  lemma LeavingFetch(s: State, j: JobId)
    requires CanFetch(s) && Leaving(AfterFetch(s), j)
    ensures Leaving(s, j)
  {
  }

  lemma NeverShutDown(s: State, now: int, j: JobId)
    requires CanAcquire(s)
    ensures !ShutDown(AcquireShift(s, now).worker, j)
  {
  }

  // ----- A close is for good -----

  lemma ClosingCall(s: State, c: Call)
    requires CanCall(s, c)
    ensures s.closing ==> AfterCall(s, c).closing
    ensures c.Shutdown? ==> s.closing
  {
    hide Apply, NewJob;
  }

  lemma ClosingMove(s: State, m: Move)
    requires !s.worker.Idle? && s.worker.id in s.jobs
    ensures Do(s, m).closing == s.closing
  {
    hide Apply;
  }

  lemma ClosingShift(s: State, k: JobId, x: Shift)
    requires k in s.jobs
    ensures Shifted(s, k, x).closing == s.closing
  {
    hide Apply;
  }

  lemma ClosingStep(s: State, e: Event)
    requires Enabled(s, e) && s.closing
    ensures Step(s, e).closing
  {
    hide AfterCall, Do, MoveOf, Shifted, AcquireShift, BriefShift;
    match e
    case Outside(c) => ClosingCall(s, c);
    case Fetch =>
    case Acquire(now) => ClosingShift(s, s.worker.id, AcquireShift(s, now));
    case Worker(a) => ClosingMove(s, MoveOf(s, a));
    case InShort(b) => ClosingShift(s, b.id, BriefShift(s, b));
  }

  /** Along every run: a shutdown that is asked for or under way was asked for by a close, in this run or before it. */
  lemma {:induction false} LeavingWasAsked(s: State, es: seq<Event>, j: JobId)
    requires Possible(s, es) && Leaving(Run(s, es), j) && (Leaving(s, j) ==> s.closing)
    ensures Leaving(s, j) || exists k :: 0 <= k < |es| && AsksShutdown(es[k], j)
    ensures Run(s, es).closing
    decreases |es|
  {
    hide Step, Enabled, Leaving, AsksShutdown;
    if es != [] {
      var r := Step(s, es[0]);
      if Leaving(r, j) {
        LeavingStep(s, es[0], j);
        AskedWhenClosing(s, es[0], j);
      }
      LeavingWasAsked(r, es[1..], j);
      if exists k :: 0 <= k < |es[1..]| && AsksShutdown(es[1..][k], j) {
        var k :| 0 <= k < |es[1..]| && AsksShutdown(es[1..][k], j);
        assert AsksShutdown(es[k + 1], j);
      } else if !Leaving(s, j) {
        assert AsksShutdown(es[0], j);
      }
    }
  }

  lemma AskedWhenClosing(s: State, e: Event, j: JobId)
    requires Enabled(s, e) && (s.closing || AsksShutdown(e, j))
    ensures Step(s, e).closing
  {
    if AsksShutdown(e, j) {
      ClosingCall(s, e.call);
    }
    ClosingStep(s, e);
  }

  /**
   In every reachable state a pause is taken for a shutdown only in a closing manager, and only of a job
   whose shutdown the close has asked for.
   */
  lemma ShutdownsAreCloses(s0: State, es: seq<Event>, s: State, j: JobId)
    requires Reachable(s0, es, s) && ShutDown(s.worker, j)
    ensures s.closing && exists k :: 0 <= k < |es| && AsksShutdown(es[k], j)
  {
    LeavingSo(s, j);
    hide Run, Possible;
    assert !Leaving(s0, j);
    hide Leaving, AsksShutdown;
    LeavingWasAsked(s0, es, j);
  }

  /** A pause lets a job go unfinished only in a closing manager that has asked for the shutdown of that very job. */
  lemma PausesThatAbandon(s0: State, es: seq<Event>, s: State, e: Event, j: JobId)
    requires Reachable(s0, es, s) && Enabled(s, e)
    requires j !in s.abandoned && j in Step(s, e).abandoned && !(e.Worker? && e.action.StopAbandon?)
    ensures e == Worker(PauseDone) && s.worker == PauseWritten(j, true)
    ensures s.closing && exists k :: 0 <= k < |es| && AsksShutdown(es[k], j)
  {
    hide Run, Possible, Step, AsksShutdown, Enabled, Init;
    HowJobsAreAbandoned(s, e, j);
    DoneFromWritten(s, e);
    ShutdownsAreCloses(s0, es, s, j);
  }

  lemma DoneFromWritten(s: State, e: Event)
    requires Enabled(s, e) && e.Worker? && e.action.PauseDone?
    ensures s.worker.PauseWritten?
  {
  }

  // ----- A pause holds, and the job runs on -----

  /** The worker stands at `w` with `j`, and no call holds the transition lock of `j`. */
  ghost predicate With(s: State, j: JobId, w: JobEngine.Worker) {
    Inv(s) && s.worker == w && !w.Idle? && w.id == j && j in s.jobs && s.jobs[j].resumable
  }

  /** Nothing is lost on the way: the job keeps its checkpoint, its lock and its database. */
  ghost predicate Keeps(s: State, r: State, j: JobId) {
    && j in s.jobs && j in r.jobs && r.jobs[j].checkpoint == s.jobs[j].checkpoint
    && r.jobs[j].progress == s.jobs[j].progress && r.jobs[j].result == s.jobs[j].result
    && r.execution == s.execution && r.db == s.db && r.closing == s.closing && r.abandoned == s.abandoned
    && r.left == s.left
  }

  lemma InvLocks(s: State)
    requires Inv(s)
    ensures LockInv(s.transition, s.worker)
  {
    hide Records, Domains, Operations, Remembered, Queueing, Locking, Statuses, Served, Requests, DataInv, StartOrder;
  }

  lemma PauseTaken(s: State, j: JobId, t: int)
    requires With(s, j, InRun(j)) && s.jobs[j].status.Running? && j !in s.transition
    ensures Enabled(s, Outside(Pause(j, t)))
    ensures var r := Step(s, Outside(Pause(j, t)));
      With(r, j, InRun(j)) && Keeps(s, r, j) && Requested(r, j, PauseRequest)
      && r.transition == s.transition[j := ByPause]
      && r.jobs[j].status.Pausing? && r.jobs[j].reason == "manual" && r.jobs[j].control == "pause"
  {
    hide Inv, Step, CanCall, CanAct, Apply, Do, LockKey, RecordInv, DbAt;
    StepKeepsInvIf(s, Outside(Pause(j, t)));
    PauseIs(s, j, t);
    ApplyMeaning(s.jobs[j], PAUSE_PATCH, t);
  }

  lemma StepKeepsInvIf(s: State, e: Event)
    requires Inv(s)
    ensures Enabled(s, e) ==> Inv(Step(s, e))
  {
    hide Inv, Step, Enabled;
    if Enabled(s, e) {
      StepKeepsInv(s, e);
    }
  }

  lemma PauseReleased(s: State, j: JobId)
    requires With(s, j, InRun(j)) && j in s.transition && s.transition[j] == ByPause
    ensures Enabled(s, Outside(Release(j)))
    ensures var r := Step(s, Outside(Release(j)));
      With(r, j, InRun(j)) && Keeps(s, r, j) && r.requests == s.requests && r.jobs == s.jobs && j !in r.transition
  {
    hide Inv, Step, CanAct, Apply, Do, LockKey, RecordInv, DbAt;
    StepKeepsInvIf(s, Outside(Release(j)));
    ReleaseIs(s, j);
  }

  lemma PauseReached(s: State, j: JobId)
    requires With(s, j, InRun(j)) && Requested(s, j, PauseRequest)
    ensures Enabled(s, Worker(OpControlPoint))
    ensures var r := Step(s, Worker(OpControlPoint));
      With(r, j, PauseSeen(j, false)) && Keeps(s, r, j) && r.requests == s.requests && r.jobs == s.jobs
      && r.transition == s.transition
  {
    hide Inv, Step, CanCall, CanAct, Apply, Do, LockKey, RecordInv, DbAt;
    StepKeepsInvIf(s, Worker(OpControlPoint));
    InvLocks(s);
    OperationCan(s, 0.0, "", "", None, None, 0);
    ControlPointIs(s);
  }

  lemma PauseDecided(s: State, j: JobId, t: int)
    requires With(s, j, PauseSeen(j, false)) && Requested(s, j, PauseRequest) && j !in s.transition
    ensures Enabled(s, Worker(PauseDecide(t)))
    ensures var r := Step(s, Worker(PauseDecide(t)));
      With(r, j, PauseWritten(j, false)) && Keeps(s, r, j)
      && r.jobs[j].status.Paused? && r.jobs[j].reason == "manual" && r.jobs[j].control == ""
  {
    hide Inv, Step, CanCall, CanAct, Apply, Do, LockKey, RecordInv, DbAt;
    StepKeepsInvIf(s, Worker(PauseDecide(t)));
    EndingCan(s, None, t);
    PauseDecideIs(s, t);
    ApplyMeaning(s.jobs[j], StatusPatch(Paused, "manual", ""), t);
  }

  lemma PauseStands(s: State, j: JobId)
    requires With(s, j, PauseWritten(j, false))
    ensures Enabled(s, Worker(PauseDone))
    ensures var r := Step(s, Worker(PauseDone));
      With(r, j, AtTop(j)) && Keeps(s, r, j) && r.jobs == s.jobs && j !in r.requests
  {
    hide Inv, Step, CanCall, CanAct, Apply, Do, LockKey, RecordInv, DbAt;
    StepKeepsInvIf(s, Worker(PauseDone));
    EndingCan(s, None, 0);
    PauseDoneIs(s);
  }

  lemma PauseWaits(s: State, j: JobId, t: int)
    requires With(s, j, AtTop(j)) && IsPaused(s.jobs[j].status) && j !in s.requests
    ensures Enabled(s, Worker(Top(t)))
    ensures var r := Step(s, Worker(Top(t)));
      With(r, j, Waiting(j)) && Keeps(s, r, j) && r.jobs == s.jobs && r.requests == s.requests
  {
    hide Inv, Step, CanCall, CanAct, Apply, Do, LockKey, RecordInv, DbAt;
    StepKeepsInvIf(s, Worker(Top(t)));
    InvLocks(s);
    StartCan(s, t);
    TopIs(s, t);
  }

  lemma ResumeTaken(s: State, j: JobId, t: int)
    requires With(s, j, Waiting(j)) && IsPaused(s.jobs[j].status) && j !in s.requests
    ensures Enabled(s, Outside(Resume(j, t)))
    ensures var r := Step(s, Outside(Resume(j, t)));
      With(r, j, Waiting(j)) && Keeps(s, r, j) && j !in r.requests && j in r.signals
      && r.jobs[j].status.Paused? && r.jobs[j].reason == "resume_requested" && r.jobs[j].control == "resume"
      && r.jobs[j].error == None && r.jobs[j].attempts == s.jobs[j].attempts
  {
    hide Inv, Step, CanCall, CanAct, Apply, Do, LockKey, RecordInv, DbAt;
    StepKeepsInvIf(s, Outside(Resume(j, t)));
    ResumeIs(s, j, t);
    ApplyMeaning(s.jobs[j], RESUME_PATCH, t);
  }

  lemma ResumeSignalled(s: State, j: JobId)
    requires With(s, j, Waiting(j)) && j in s.signals
    ensures Enabled(s, Outside(Signal(j)))
    ensures var r := Step(s, Outside(Signal(j)));
      With(r, j, Waiting(j)) && Keeps(s, r, j) && r.jobs == s.jobs && r.requests == s.requests && j in r.events
  {
    hide Inv, Step, CanAct, Apply, Do, LockKey, RecordInv, DbAt;
    StepKeepsInvIf(s, Outside(Signal(j)));
    SignalIs(s, j);
  }

  lemma RunsOn(s: State, j: JobId, t: int)
    requires With(s, j, Waiting(j)) && s.jobs[j].status.Paused? && j in s.events && j !in s.requests
    requires s.jobs[j].attempts > 0
    ensures Enabled(s, Worker(Wake(t)))
    ensures var r := Step(s, Worker(Wake(t)));
      With(r, j, InRun(j)) && Keeps(s, r, j) && j !in r.requests && j !in r.events
      && r.jobs[j].status.Running? && r.jobs[j].reason == "" && r.jobs[j].control == "" && r.jobs[j].error == None
      && r.jobs[j].attempts == s.jobs[j].attempts + 1
  {
    hide Inv, Step, CanCall, CanAct, Apply, Do, LockKey, RecordInv, DbAt;
    StepKeepsInvIf(s, Worker(Wake(t)));
    InvLocks(s);
    StartCan(s, t);
    WakeIs(s, t);
    BeginIs(s, t, true);
    ApplyMeaning(s.jobs[j], RUN_PATCH, t);
  }

  lemma Follow(s: State, e: Event, es: seq<Event>)
    requires es != [] && es[0] == e && Enabled(s, e) && Possible(Step(s, e), es[1..])
    ensures Possible(s, es) && Run(s, es) == Run(Step(s, e), es[1..])
  {
    hide Step, Enabled;
  }

  lemma Three(s: State, a: Event, b: Event, c: Event)
    requires Enabled(s, a) && Enabled(Step(s, a), b) && Enabled(Step(Step(s, a), b), c)
    ensures Possible(s, [a, b, c]) && Run(s, [a, b, c]) == Step(Step(Step(s, a), b), c)
  {
    hide Step, Enabled;
    Follow(Step(Step(s, a), b), c, [c]);
    Follow(Step(s, a), b, [b, c]);
    Follow(s, a, [a, b, c]);
  }

  lemma Four(s: State, a: Event, b: Event, c: Event, d: Event)
    requires Enabled(s, a) && Enabled(Step(s, a), b) && Enabled(Step(Step(s, a), b), c)
    requires Enabled(Step(Step(Step(s, a), b), c), d)
    ensures Possible(s, [a, b, c, d]) && Run(s, [a, b, c, d]) == Step(Step(Step(Step(s, a), b), c), d)
  {
    hide Step, Enabled, Possible, Run;
    Three(Step(s, a), b, c, d);
    Follow(s, a, [a, b, c, d]);
    assert [a, b, c, d][1..] == [b, c, d];
  }

  /** A pause of the running operation of `j`, up to where it has been written. */
  function PauseRun(j: JobId, t: int): seq<Event> {
    [Outside(Pause(j, t)), Outside(Release(j)), Worker(OpControlPoint), Worker(PauseDecide(t))]
  }

  /** A resume of a job the worker waits with. */
  function WakeRun(j: JobId, t: int): seq<Event> {
    [Outside(Resume(j, t)), Outside(Signal(j)), Worker(Wake(t))]
  }

  /** On to where the worker waits, and a resume of the job. */
  function ResumeRun(j: JobId, t: int): seq<Event> {
    [Worker(PauseDone), Worker(Top(t))] + WakeRun(j, t)
  }

  /** In every manager, closing or not: a pause that is accepted for a running job is a manual one, and is written. */
  lemma PauseIsWritten(s: State, j: JobId, t: int)
    requires With(s, j, InRun(j)) && s.jobs[j].status.Running? && j !in s.transition
    ensures Possible(s, PauseRun(j, t))
    ensures var r := Run(s, PauseRun(j, t));
      With(r, j, PauseWritten(j, false)) && Keeps(s, r, j)
      && r.jobs[j].status.Paused? && r.jobs[j].reason == "manual" && r.jobs[j].control == ""
  {
    hide With, Keeps, Step, Enabled, Possible, Run;
    var es := PauseRun(j, t);
    PauseTaken(s, j, t);
    var s1 := Step(s, es[0]);
    PauseReleased(s1, j);
    var s2 := Step(s1, es[1]);
    PauseReached(s2, j);
    var s3 := Step(s2, es[2]);
    PauseDecided(s3, j, t);
    var s4 := Step(s3, es[3]);
    Four(s, es[0], es[1], es[2], es[3]);
    KeptAlong(s, s1, s2, j);
    KeptAlong(s, s2, s3, j);
    KeptAlong(s, s3, s4, j);
  }

  lemma KeptAlong(a: State, b: State, c: State, j: JobId)
    requires Keeps(a, b, j) && Keeps(b, c, j)
    ensures Keeps(a, c, j)
  {
  }

  /** A job at rest with the worker, paused or interrupted, is taken back into its operation by a resume. */
  lemma WaitingJobRunsOn(s: State, j: JobId, t: int)
    requires With(s, j, Waiting(j)) && IsPaused(s.jobs[j].status) && j !in s.requests && s.jobs[j].attempts > 0
    ensures Possible(s, WakeRun(j, t))
    ensures var r := Run(s, WakeRun(j, t));
      With(r, j, InRun(j)) && Keeps(s, r, j) && j !in r.requests
      && r.jobs[j].status.Running? && r.jobs[j].reason == "" && r.jobs[j].control == "" && r.jobs[j].error == None
      && r.jobs[j].attempts == s.jobs[j].attempts + 1
  {
    hide With, Keeps, Step, Enabled, Possible, Run;
    var es := WakeRun(j, t);
    ResumeTaken(s, j, t);
    var s1 := Step(s, es[0]);
    ResumeSignalled(s1, j);
    var s2 := Step(s1, es[1]);
    RunsOn(s2, j, t);
    var s3 := Step(s2, es[2]);
    Three(s, es[0], es[1], es[2]);
    KeptAlong(s, s1, s2, j);
    KeptAlong(s, s2, s3, j);
  }

  /**
   The paused job waits with the worker, which is not done with it, and a resume takes it back into its
   operation, where it goes on from its checkpoint and over its database.
   */
  lemma PausedJobRunsOn(s: State, j: JobId, t: int)
    requires With(s, j, PauseWritten(j, false)) && s.jobs[j].status.Paused? && s.jobs[j].attempts > 0
    ensures Possible(s, ResumeRun(j, t))
    ensures var r := Run(s, ResumeRun(j, t));
      With(r, j, InRun(j)) && Keeps(s, r, j) && j !in r.requests
      && r.jobs[j].status.Running? && r.jobs[j].reason == "" && r.jobs[j].control == "" && r.jobs[j].error == None
      && r.jobs[j].attempts == s.jobs[j].attempts + 1
  {
    hide With, Keeps, Step, Enabled, WakeRun;
    var es := ResumeRun(j, t);
    PauseStands(s, j);
    var s1 := Step(s, es[0]);
    PauseWaits(s1, j, t);
    var s2 := Step(s1, es[1]);
    WaitingJobRunsOn(s2, j, t);
    assert es[2..] == WakeRun(j, t);
    Follow(s1, es[1], es[1..]);
    Follow(s, es[0], es);
    KeptAlong(s, s1, s2, j);
    KeptAlong(s, s2, Run(s2, WakeRun(j, t)), j);
  }

  // ----- A shutdown lets the job go -----

  lemma ShutdownTaken(s: State, j: JobId, t: int)
    requires With(s, j, InRun(j)) && s.closing && (s.jobs[j].status.Running? || s.jobs[j].status.Pausing?)
    ensures Enabled(s, Outside(Shutdown(j, t)))
    ensures var r := Step(s, Outside(Shutdown(j, t)));
      With(r, j, InRun(j)) && Keeps(s, r, j) && Requested(r, j, ShutdownRequest) && r.transition == s.transition
      && r.jobs[j].status.Pausing? && r.jobs[j].reason == "shutdown" && r.jobs[j].control == "shutdown"
  {
    hide Inv, Step, CanCall, CanAct, Apply, Do, LockKey, RecordInv, DbAt;
    StepKeepsInvIf(s, Outside(Shutdown(j, t)));
    ShutdownIs(s, j, t);
    ApplyMeaning(s.jobs[j], SHUTDOWN_PATCH, t);
  }

  lemma ShutdownReached(s: State, j: JobId)
    requires With(s, j, InRun(j)) && Requested(s, j, ShutdownRequest)
    ensures Enabled(s, Worker(OpControlPoint))
    ensures var r := Step(s, Worker(OpControlPoint));
      With(r, j, PauseSeen(j, true)) && Keeps(s, r, j) && r.requests == s.requests && r.jobs == s.jobs
      && r.transition == s.transition
  {
    hide Inv, Step, CanCall, CanAct, Apply, Do, LockKey, RecordInv, DbAt;
    StepKeepsInvIf(s, Worker(OpControlPoint));
    InvLocks(s);
    OperationCan(s, 0.0, "", "", None, None, 0);
    ControlPointIs(s);
  }

  lemma ShutdownDecided(s: State, j: JobId, t: int)
    requires With(s, j, PauseSeen(j, true)) && Requested(s, j, ShutdownRequest) && j !in s.transition
    ensures Enabled(s, Worker(PauseDecide(t)))
    ensures var r := Step(s, Worker(PauseDecide(t)));
      With(r, j, PauseWritten(j, true)) && Keeps(s, r, j)
      && r.jobs[j].status.Paused? && r.jobs[j].reason == "shutdown" && r.jobs[j].control == ""
  {
    hide Inv, Step, CanCall, CanAct, Apply, Do, LockKey, RecordInv, DbAt;
    StepKeepsInvIf(s, Worker(PauseDecide(t)));
    EndingCan(s, None, t);
    PauseDecideIs(s, t);
    ApplyMeaning(s.jobs[j], StatusPatch(Paused, "shutdown", ""), t);
  }

  lemma ShutdownDone(s: State, j: JobId)
    requires With(s, j, PauseWritten(j, true))
    ensures Enabled(s, Worker(PauseDone))
    ensures var r := Step(s, Worker(PauseDone));
      r.worker.Idle? && r.jobs == s.jobs && j !in r.requests && j in r.abandoned && r.db == s.db
      && LockKey(s.jobs[j]) !in r.execution && j !in r.transition
  {
    hide Inv, Step, CanCall, CanAct, Apply, Do, LockKey, RecordInv, DbAt;
    EndingCan(s, None, 0);
    InvTransition(s, j);
    PauseDoneIs(s);
    LeaveIs(s.(requests := s.requests - {j}), true);
  }

  lemma InvTransition(s: State, j: JobId)
    requires With(s, j, PauseWritten(j, true))
    ensures j in s.transition && s.transition[j] == ByWorker
  {
    hide Records, Domains, Operations, Remembered, Queueing, Locking, Statuses, Served, Requests, DataInv, StartOrder;
  }

  /** The shutdown of the job that runs when a manager closes. */
  function ShutdownRun(j: JobId, t: int): seq<Event> {
    [Outside(Shutdown(j, t)), Worker(OpControlPoint), Worker(PauseDecide(t)), Worker(PauseDone)]
  }

  /**
   A close leaves the job it finds `paused` with the reason `shutdown`, its checkpoint and database kept
   and its lock free; the worker is done with it.
   */
  lemma ShutdownLetsGo(s: State, j: JobId, t: int)
    requires With(s, j, InRun(j)) && s.closing && (s.jobs[j].status.Running? || s.jobs[j].status.Pausing?)
    requires j !in s.transition
    ensures Possible(s, ShutdownRun(j, t))
    ensures var r := Run(s, ShutdownRun(j, t));
      && r.worker.Idle? && j in r.abandoned && j !in r.requests && j in r.jobs && r.db == s.db
      && LockKey(r.jobs[j]) !in r.execution && r.jobs[j].checkpoint == s.jobs[j].checkpoint
      && r.jobs[j].status.Paused? && r.jobs[j].reason == "shutdown" && r.jobs[j].control == ""
  {
    hide Inv, Step, Enabled, LockKey, Possible, Run;
    var es := ShutdownRun(j, t);
    ShutdownTaken(s, j, t);
    var s1 := Step(s, es[0]);
    ShutdownReached(s1, j);
    var s2 := Step(s1, es[1]);
    ShutdownDecided(s2, j, t);
    var s3 := Step(s2, es[2]);
    ShutdownDone(s3, j);
    var s4 := Step(s3, es[3]);
    Four(s, es[0], es[1], es[2], es[3]);
  }

  /** The operation returns before it sees the pause: the check under the lock sees it. */
  lemma PauseAtTheEnd(s: State, j: JobId)
    requires With(s, j, Returned(j)) && j !in s.transition && Requested(s, j, PauseRequest)
    ensures Enabled(s, Worker(CompleteCheck))
    ensures var r := Step(s, Worker(CompleteCheck));
      With(r, j, PauseSeen(j, false)) && Keeps(s, r, j) && r.requests == s.requests && r.jobs == s.jobs
      && r.transition == s.transition
  {
    hide Inv, Step, CanCall, CanAct, Apply, Do, LockKey, RecordInv, DbAt;
    StepKeepsInvIf(s, Worker(CompleteCheck));
    EndingCan(s, None, 0);
    CheckIs(s);
  }
}
