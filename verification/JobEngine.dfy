/**
 The durable job engine as a state machine. One event is a stretch of code between two
 points where the program can yield; `_update` is atomic and the code after it may be
 delayed, so other tasks run in between. The resolver, `cancel_queued` and the state
 capture are taken as atomic.
 */
module JobEngine {
  import opened Common
  import opened JobRecord

  type JobId = string
  type Content = string

  datatype Request = PauseRequest | StopRequest | ShutdownRequest

  /** Who holds a job's transition lock. */
  datatype Holder = ByWorker | ByPause | ByStop

  /** Where the long-lane worker stands. All but `Idle` and `Fetched` hold the job's execution lock. */
  datatype Worker =
    | Idle
    | Fetched(id: JobId)
    | AtTop(id: JobId)                           // head of the loop in _run_resumable
    | Waiting(id: JobId)                         // waits for the control event
    | InRun(id: JobId)                           // inside operation.run
    | Returned(id: JobId)                        // operation.run returned; wants the transition lock
    | Checked(id: JobId)                         // control point passed under the lock
    | Written(id: JobId)                         // `completed` written under the lock
    | PauseSeen(id: JobId, shutdown: bool)       // JobPauseRequested caught; wants the lock
    | PauseWritten(id: JobId, shutdown: bool)    // `paused` written under the lock
    | InterruptSeen(id: JobId, why: string)
    | InterruptWritten(id: JobId)
    | StopMark(id: JobId)                        // entry of _perform_stop
    | StopRollback(id: JobId)
    | StopUndone(id: JobId)                      // rollback succeeded
    | StopStuck(id: JobId)                       // rollback raised; `interrupted` written
    | FailRollback(id: JobId)                    // operation raised; rolling back
    | FailUndone(id: JobId)
    | InSimple(id: JobId)                        // a job that is not resumable, in the long lane

  datatype Short = ShortWait | ShortRun

  datatype State = State(
    jobs: map<JobId, Job>,
    requests: map<JobId, Request>,       // _control_requests
    events: set<JobId>,                  // control events that are set
    operations: set<JobId>,              // _operations
    queue: seq<JobId>,
    worker: Worker,
    shorts: map<JobId, Short>,           // _simple_tasks
    execution: map<string, JobId>,       // _database_execution_locks that are held, with the holder
    transition: map<JobId, Holder>,      // _transition_locks that are held
    signals: multiset<JobId>,            // resume and close calls that still have to set the event
    closing: bool,
    db: map<string, Content>,            // contents of each database
    // History variables: no transition depends on them.
    before: map<JobId, Content>,         // the database when the job first ran
    left: map<JobId, Content>,           // the database as the job itself last left it
    enqueued: seq<JobId>,                // everything ever put into the long queue
    served: nat,                         // how much of it the worker has taken
    starts: seq<int>,                    // positions in `enqueued` of the long-lane executions
    abandoned: set<JobId>                // jobs the worker let go before a terminal status
  )

  const GLOBAL_KEY := "__global__"

  function LockKey(job: Job): string {
    if job.resourceKey.Some? && job.resourceKey.value != "" then job.resourceKey.value else GLOBAL_KEY
  }

  function DbAt(s: State, key: string): Content {
    if key in s.db then s.db[key] else ""
  }

  function Current(w: Worker): Option<JobId> {
    if w.Idle? then None else Some(w.id)
  }

  predicate Holds(w: Worker, id: JobId) {
    !w.Idle? && !w.Fetched? && w.id == id
  }

  predicate Requested(s: State, id: JobId, r: Request) {
    id in s.requests && s.requests[id] == r
  }

  // ----- The field updates the program writes -----

  function StatusPatch(status: Status, reason: string, control: string): Patch {
    NOTHING.(status := Put(status), reason := Put(reason), control := Put(control))
  }

  const RUN_PATCH := StatusPatch(Running, "", "").(message := Put("running from the safe point"), error := Put(None))
  const SIMPLE_RUN_PATCH := NOTHING.(status := Put(Running), message := Put("started"))
  const STOPPED_PATCH := StatusPatch(Stopped, "manual", "").(progress := Put(0.0), error := Put(None))

  function CompletePatch(result: Option<string>): Patch {
    StatusPatch(Completed, "", "").(progress := Put(1.0), result := Put(result), error := Put(None))
  }

  function FailedPatch(reason: string, error: string): Patch {
    NOTHING.(status := Put(Failed), reason := Put(reason), error := Put(Some(error)))
  }

  function CancelPatch(reason: string): Patch {
    StatusPatch(Cancelled, reason, "").(progress := Put(0.0), error := Put(None))
  }

  const MISSING_PATCH :=
    NOTHING.(status := Put(Cancelled), progress := Put(0.0), reason := Put("operation_missing"))

  const ROLLBACK_FAILED := "rollback_failed"
  const OPERATION_FAILED := "operation_failed"

  // ----- Building blocks -----

  /** `_update` on one job; nothing else moves. */
  function Update(s: State, id: JobId, p: Patch, now: int): (r: State)
    requires id in s.jobs
    ensures r == s.(jobs := r.jobs) && r.jobs.Keys == s.jobs.Keys
    ensures forall j :: j in s.jobs && j != id ==> r.jobs[j] == s.jobs[j]
    ensures r.jobs[id].status == Value(p.status, s.jobs[id].status)
    ensures r.jobs[id].resourceKey == s.jobs[id].resourceKey && r.jobs[id].resumable == s.jobs[id].resumable
    ensures r.jobs[id].attempts >= s.jobs[id].attempts
    ensures RecordInv(s.jobs[id]) && Allowed(s.jobs[id], p) ==> RecordInv(r.jobs[id])
  {
    hide Apply;
    ApplyMeaning(s.jobs[id], p, now);
    ApplyKeeps(s.jobs[id], p, now);
    s.(jobs := s.jobs[id := Apply(s.jobs[id], p, now)])
  }

  /**
   One step of the worker with the job it holds: the fields it writes, where it goes next
   (`Idle` gives the execution lock back), whether it then holds the transition lock, and
   what else it does.
   */
  datatype Move = Move(
    next: Worker,
    patch: Patch,
    now: int,
    hold: bool,                  // the transition lock is held afterwards
    drop: bool,                  // the control request is popped
    clear: bool,                 // the control event is cleared
    begin: bool,                 // an execution begins
    abandon: bool,               // the job is let go before a terminal status
    content: Option<Content>     // new content of the job's database
  )

  function Goto(w: Worker): Move {
    Move(w, NOTHING, 0, false, false, false, false, false, None)
  }

  function Writes(w: Worker, p: Patch, now: int): Move {
    Goto(w).(patch := p, now := now)
  }

  function Do(s: State, m: Move): State
    requires !s.worker.Idle? && s.worker.id in s.jobs
  {
    var id := s.worker.id;
    var key := LockKey(s.jobs[id]);
    var first := m.begin && s.jobs[id].attempts == 0;
    Update(s, id, m.patch, m.now).(
      worker := m.next,
      execution := if m.next.Idle? then s.execution - {key} else s.execution,
      transition := if m.hold then s.transition[id := ByWorker]
                    else if id in s.transition && s.transition[id] == ByWorker then s.transition - {id}
                    else s.transition,
      requests := if m.drop then s.requests - {id} else s.requests,
      events := if m.clear then s.events - {id} else s.events,
      abandoned := if m.abandon then s.abandoned + {id} else s.abandoned,
      starts := if m.begin then s.starts + [s.served - 1] else s.starts,
      before := if first then s.before[id := DbAt(s, key)] else s.before,
      left := if m.content.Some? && id in s.left then s.left[id := m.content.value]
              else if first then s.left[id := DbAt(s, key)] else s.left,
      db := if m.content.Some? then s.db[key := m.content.value] else s.db)
  }

  // ----- Events -----

  /** Calls from outside; each one is atomic up to the release of a lock or the signal it sends. */
  datatype Call =
    | Start(id: JobId, kind: string, key: Option<string>, resumable: bool, long: bool, now: int)
    | Pause(id: JobId, now: int)
    | Resume(id: JobId, now: int)
    | Stop(id: JobId, now: int)
    | Cancel(id: JobId, why: string, now: int)
    | Shutdown(id: JobId, now: int)
    | Release(id: JobId)                 // pause or stop gives the transition lock back; stop also signals
    | Signal(id: JobId)                  // resume or close sets the control event
    | BeginClose

  /** Steps of the worker with the job it holds. `v` is what a rollback leaves when nothing is known of it. */
  datatype Action =
    | Top(now: int)
    | Wake(now: int)
    | ResolveFails(now: int)
    // the operation of a resumable job
    | OpWrite(v: Content)
    | OpProgress(p: real, m: string, now: int)
    | OpCheckpoint(c: string, value: Option<real>, note: Option<string>, now: int)
    | OpControlPoint
    | OpReturns
    | OpInterrupts(why: string)
    | OpFails
    // after the operation
    | CompleteCheck
    | CompleteWrite(result: Option<string>, now: int)
    | CompleteRelease
    | PauseDecide(now: int)
    | PauseDone
    | InterruptDecide(now: int)
    | InterruptDone
    // stop and failure
    | MarkStopping(now: int)
    | StopUndo(v: Content)
    | StopUndoFails(v: Content, now: int)
    | StopWrite(now: int)
    | StopAbandon
    | FailUndo(v: Content)
    | FailUndoFails(v: Content, now: int)
    | FailWrite(error: string, now: int)
    // a job that is not resumable
    | LongWrite(v: Content)
    | LongProgress(p: real, m: string, now: int)
    | LongEnds(how: Patch, now: int)

  /** Jobs in the short lane. */
  datatype Brief =
    | ShortAcquire(id: JobId, now: int)
    | ShortWrite(id: JobId, v: Content)
    | ShortProgress(id: JobId, p: real, m: string, now: int)
    | ShortEnds(id: JobId, how: Patch, now: int)

  datatype Event =
    | Outside(call: Call)
    | Fetch
    | Acquire(now: int)
    | Worker(action: Action)
    | InShort(brief: Brief)

  function Clamp(p: real): real {
    if p < 0.0 then 0.0 else if p > 1.0 then 1.0 else p
  }

  function SimpleDone(result: Option<string>): Patch {
    NOTHING.(status := Put(Completed), progress := Put(1.0), message := Put("done"), result := Put(result),
             error := Put(None))
  }

  function SimpleFailed(error: string): Patch {
    NOTHING.(status := Put(Failed), message := Put("failed"), error := Put(Some(error)))
  }

  function ProgressPatch(p: real, m: string): Patch {
    NOTHING.(status := Put(Running), progress := Put(p), message := Put(m))
  }

  /** A checkpoint may carry progress and a message along; it leaves the status alone. */
  function CheckpointPatch(c: string, p: Option<real>, m: Option<string>): Patch {
    NOTHING.(checkpoint := Put(Some(c)),
             progress := if p.Some? then Put(Clamp(p.value)) else Keep,
             message := if m.Some? then Put(m.value) else Keep)
  }

  /** The three ways a job that is not resumable ends: done, failed, or a runtime lease that cannot be taken. */
  predicate SimpleEnding(p: Patch) {
    || (p.result.Put? && p == SimpleDone(p.result.value))
    || (p.error.Put? && p.error.value.Some?
        && (p == SimpleFailed(p.error.value.value) || p == FailedPatch("manager_error", p.error.value.value)))
  }

  predicate CanCall(s: State, e: Call) {
    match e
    case Start(id, _, _, _, _, _) => id !in s.jobs
    case Pause(id, _) => id in s.jobs && id !in s.transition && s.jobs[id].resumable && s.jobs[id].status.Running?
    case Resume(id, _) => id in s.jobs && s.jobs[id].resumable && IsPaused(s.jobs[id].status)
    case Stop(id, _) =>
      id in s.jobs && id !in s.transition && s.jobs[id].resumable
      && (s.jobs[id].status.Running? || s.jobs[id].status.Pausing? || IsPaused(s.jobs[id].status))
    case Cancel(id, _, _) => id in s.jobs && s.jobs[id].status.Queued?
    case Shutdown(id, _) =>
      s.closing && id in s.jobs && s.jobs[id].resumable && (s.jobs[id].status.Running? || s.jobs[id].status.Pausing?)
    case Release(id) => id in s.transition && s.transition[id] != ByWorker
    case Signal(id) => id in s.signals
    case BeginClose => !s.closing
  }

  /** What a call does to the control request of a job. */
  datatype Ask = Same | Pop | Set(r: Request)

  /** A call that writes one job: its fields, its control request, the transition lock, a signal still to be sent. */
  function Poke(s: State, j: JobId, p: Patch, now: int, ask: Ask, lock: Option<Holder>, signal: bool): State
    requires j in s.jobs
  {
    Update(s, j, p, now).(
      requests := match ask case Same => s.requests case Pop => s.requests - {j} case Set(r) => s.requests[j := r],
      transition := if lock.Some? then s.transition[j := lock.value] else s.transition,
      signals := if signal then s.signals + multiset{j} else s.signals)
  }

  /** jobs.py:539-555: a new job goes to the long queue or gets a task of its own. */
  function AddJob(s: State, j: JobId, job: Job, long: bool): State {
    s.(jobs := s.jobs[j := job],
       operations := if job.resumable then s.operations else s.operations + {j},
       queue := if long then s.queue + [j] else s.queue,
       enqueued := if long then s.enqueued + [j] else s.enqueued,
       shorts := if long then s.shorts else s.shorts[j := ShortWait])
  }

  const PAUSE_PATCH := StatusPatch(Pausing, "manual", "pause")
  const RESUME_PATCH := StatusPatch(Paused, "resume_requested", "resume").(error := Put(None))
  const STOP_PATCH := StatusPatch(Stopping, "manual", "stop")
  const SHUTDOWN_PATCH := StatusPatch(Pausing, "shutdown", "shutdown")

  function AfterCall(s: State, e: Call): State
    requires CanCall(s, e)
  {
    match e
    case Start(j, kind, key, resumable, long, now) => AddJob(s, j, NewJob(kind, key, resumable, now), resumable || long)
    case Pause(j, now) => Poke(s, j, PAUSE_PATCH, now, Set(PauseRequest), Some(ByPause), false)
    case Resume(j, now) => Poke(s, j, RESUME_PATCH, now, Pop, None, true)
    case Stop(j, now) => Poke(s, j, STOP_PATCH, now, Set(StopRequest), Some(ByStop), false)
    case Cancel(j, why, now) => Poke(s.(operations := s.operations - {j}), j, CancelPatch(why), now, Same, None, false)
    case Shutdown(j, now) => Poke(s, j, SHUTDOWN_PATCH, now, Set(ShutdownRequest), None, true)
    case Release(j) =>
      s.(transition := s.transition - {j}, events := if s.transition[j] == ByStop then s.events + {j} else s.events)
    case Signal(j) => s.(events := s.events + {j}, signals := s.signals - multiset{j})
    case BeginClose => s.(closing := true)
  }

  predicate CanAct(s: State, a: Action) {
    && !s.worker.Idle? && s.worker.id in s.jobs
    && (var id := s.worker.id;
        var st := s.jobs[id].status;
        match a
        case Top(_) => s.worker.AtTop?
        case Wake(_) => s.worker.Waiting? && id in s.events
        case ResolveFails(_) =>
          (s.worker.AtTop? && !IsTerminal(st) && !IsPaused(st)) || (s.worker.Waiting? && id in s.events)
        case CompleteCheck => s.worker.Returned? && id !in s.transition
        case CompleteWrite(_, _) => s.worker.Checked?
        case CompleteRelease => s.worker.Written?
        case PauseDecide(_) => s.worker.PauseSeen? && id !in s.transition
        case PauseDone => s.worker.PauseWritten?
        case InterruptDecide(_) => s.worker.InterruptSeen? && id !in s.transition
        case InterruptDone => s.worker.InterruptWritten?
        case MarkStopping(_) => s.worker.StopMark?
        case StopUndo(_) => s.worker.StopRollback?
        case StopUndoFails(_, _) => s.worker.StopRollback?
        case StopWrite(_) => s.worker.StopUndone?
        case StopAbandon => s.worker.StopStuck?
        case FailUndo(_) => s.worker.FailRollback?
        case FailUndoFails(_, _) => s.worker.FailRollback?
        case FailWrite(_, _) => s.worker.FailUndone?
        case LongWrite(_) => s.worker.InSimple?
        case LongProgress(_, _, _) => s.worker.InSimple?
        case LongEnds(how, _) => s.worker.InSimple? && SimpleEnding(how)
        case _ => s.worker.InRun?)
  }

  /** jobs.py:846-859 with a resolver that succeeds. */
  function BeginRun(s: State, id: JobId, now: int): Move {
    if Requested(s, id, StopRequest) then Goto(StopMark(id))
    else Writes(InRun(id), RUN_PATCH, now).(drop := true, begin := true)
  }

  /** Where the signal raised by `control_point` (task_control.py:74-79) takes the worker. */
  function Signalled(r: Request, id: JobId): Worker {
    if r == StopRequest then StopMark(id) else PauseSeen(id, r == ShutdownRequest)
  }

  /**
   A rollback that succeeds restores the content from before the job's first run, provided
   the database is still as the job left it. Over foreign changes, or for a job whose first
   run was in an earlier process, nothing is known of the result `v`.
   */
  function Undone(s: State, id: JobId, v: Content): Content
    requires id in s.jobs
  {
    if id in s.before && id in s.left && s.left[id] == DbAt(s, LockKey(s.jobs[id])) then s.before[id] else v
  }

  function MoveOf(s: State, a: Action): Move
    requires CanAct(s, a)
  {
    var id := s.worker.id;
    match a
    case Top(now) =>
      if IsTerminal(s.jobs[id].status) then Goto(Idle)
      else if IsPaused(s.jobs[id].status) then Goto(Waiting(id))
      else BeginRun(s, id, now)
    case Wake(now) => BeginRun(s, id, now).(clear := true)
    case ResolveFails(now) =>
      Writes(Idle, FailedPatch("manager_error", "resolver"), now).(clear := s.worker.Waiting?)
    case OpWrite(v) => Goto(InRun(id)).(content := Some(v))
    case OpProgress(p, m, now) => Writes(InRun(id), ProgressPatch(Clamp(p), m), now)
    case OpCheckpoint(c, p, m, now) => Writes(InRun(id), CheckpointPatch(c, p, m), now)
    case OpControlPoint => Goto(if id in s.requests then Signalled(s.requests[id], id) else InRun(id))
    case OpReturns => Goto(Returned(id))
    case OpInterrupts(why) => Goto(InterruptSeen(id, why))
    case OpFails => Goto(FailRollback(id))
    case CompleteCheck =>
      if id in s.requests then Goto(Signalled(s.requests[id], id)) else Goto(Checked(id)).(hold := true)
    case CompleteWrite(result, now) => Writes(Written(id), CompletePatch(result), now).(hold := true)
    case CompleteRelease => Goto(Idle)
    case PauseDecide(now) =>
      if Requested(s, id, StopRequest) then Goto(StopMark(id))
      else
        Writes(PauseWritten(id, s.worker.shutdown),
               StatusPatch(Paused, if s.worker.shutdown then "shutdown" else "manual", ""), now).(hold := true)
    case PauseDone =>
      if s.worker.shutdown then Goto(Idle).(drop := true, abandon := true) else Goto(AtTop(id)).(drop := true)
    case InterruptDecide(now) =>
      if Requested(s, id, StopRequest) then Goto(StopMark(id))
      else Writes(InterruptWritten(id), StatusPatch(Interrupted, s.worker.why, ""), now).(hold := true)
    case InterruptDone => Goto(AtTop(id)).(drop := true)
    case MarkStopping(now) => Writes(StopRollback(id), STOP_PATCH, now)
    case StopUndo(v) => Goto(StopUndone(id)).(content := Some(Undone(s, id, v)))
    case StopUndoFails(v, now) =>
      Writes(StopStuck(id), StatusPatch(Interrupted, ROLLBACK_FAILED, ""), now).(content := Some(v))
    case StopWrite(now) => Writes(Idle, STOPPED_PATCH, now).(drop := true)
    case StopAbandon => Goto(Idle).(drop := true, abandon := true)
    case FailUndo(v) => Goto(FailUndone(id)).(content := Some(Undone(s, id, v)))
    case FailUndoFails(v, now) =>
      Writes(AtTop(id), NOTHING.(status := Put(Interrupted), reason := Put(ROLLBACK_FAILED)), now).(content := Some(v))
    case FailWrite(error, now) => Writes(Idle, FailedPatch(OPERATION_FAILED, error), now)
    case LongWrite(v) => Goto(InSimple(id)).(content := Some(v))
    case LongProgress(p, m, now) => Writes(InSimple(id), ProgressPatch(p, m), now)
    case LongEnds(how, now) => Writes(Idle, how, now)
  }

  predicate CanBrief(s: State, e: Brief) {
    && e.id in s.shorts && e.id in s.jobs
    && (match e
        case ShortAcquire(id, _) => s.shorts[id].ShortWait? && LockKey(s.jobs[id]) !in s.execution
        case ShortEnds(id, how, _) => s.shorts[id].ShortRun? && SimpleEnding(how)
        case _ => s.shorts[e.id].ShortRun?)
  }

  datatype Lock = Grab | Free | Stay

  /** One step of a job that is not in an operation of a resumable kind: in the short lane, or entering the worker. */
  datatype Shift = Shift(
    patch: Patch,
    now: int,
    worker: Worker,
    short: Option<Short>,        // what becomes of the job's task
    lock: Lock,                  // what becomes of the job's execution lock
    drop: bool,                  // the operation is popped
    start: bool,                 // a long-lane execution begins
    content: Option<Content>
  )

  function Shifted(s: State, j: JobId, x: Shift): State
    requires j in s.jobs
  {
    var key := LockKey(s.jobs[j]);
    Update(s, j, x.patch, x.now).(
      worker := x.worker,
      shorts := if x.short.Some? then s.shorts[j := x.short.value] else s.shorts - {j},
      execution := if x.lock.Grab? then s.execution[key := j]
                   else if x.lock.Free? then s.execution - {key} else s.execution,
      operations := if x.drop then s.operations - {j} else s.operations,
      starts := if x.start then s.starts + [s.served - 1] else s.starts,
      db := if x.content.Some? then s.db[key := x.content.value] else s.db)
  }

  function BriefShift(s: State, e: Brief): Shift
    requires CanBrief(s, e)
  {
    var running := Shift(NOTHING, 0, s.worker, Some(ShortRun), Stay, false, false, None);
    match e
    case ShortAcquire(j, now) =>
      if IsTerminal(s.jobs[j].status) then running.(short := None, drop := true)
      else if j !in s.operations then running.(short := None, patch := MISSING_PATCH, now := now)
      else running.(lock := Grab, drop := true, patch := SIMPLE_RUN_PATCH, now := now)
    case ShortWrite(j, v) => running.(content := Some(v))
    case ShortProgress(j, p, m, now) => running.(patch := ProgressPatch(p, m), now := now)
    case ShortEnds(j, how, now) => running.(short := None, lock := Free, patch := how, now := now)
  }

  predicate CanAcquire(s: State) {
    s.worker.Fetched? && s.worker.id in s.jobs && LockKey(s.jobs[s.worker.id]) !in s.execution
  }

  /** jobs.py:754-768: the execution lock is free and taken. */
  function AcquireShift(s: State, now: int): Shift
    requires CanAcquire(s)
  {
    var id := s.worker.id;
    var taken := Shift(NOTHING, 0, AtTop(id), None, Grab, false, false, None);
    if s.jobs[id].resumable then taken
    else if id in s.operations then
      taken.(worker := InSimple(id), patch := SIMPLE_RUN_PATCH, now := now, drop := true, start := true)
    else taken.(worker := Idle, lock := Stay, patch := MISSING_PATCH, now := now)
  }

  predicate CanFetch(s: State) {
    s.worker.Idle? && |s.queue| > 0
  }

  /** jobs.py:746-753. A worker that already waits for the queue takes a job even after a close has begun. */
  function AfterFetch(s: State): State
    requires CanFetch(s)
  {
    var j := s.queue[0];
    s.(queue := s.queue[1..], served := s.served + 1,
       worker := if j !in s.jobs || IsTerminal(s.jobs[j].status) then Idle else Fetched(j))
  }

  /** The event can happen in `s`: its guard holds and the locks it needs are free. */
  predicate Enabled(s: State, e: Event) {
    match e
    case Outside(c) => CanCall(s, c)
    case Fetch => CanFetch(s)
    case Acquire(_) => CanAcquire(s)
    case Worker(a) => CanAct(s, a)
    case InShort(b) => CanBrief(s, b)
  }

  function Step(s: State, e: Event): State
    requires Enabled(s, e)
  {
    match e
    case Outside(c) => AfterCall(s, c)
    case Fetch => AfterFetch(s)
    case Acquire(now) => Shifted(s, s.worker.id, AcquireShift(s, now))
    case Worker(a) => Do(s, MoveOf(s, a))
    case InShort(b) => Shifted(s, b.id, BriefShift(s, b))
  }

  /** What `recover_for_startup` leaves behind: finished jobs, and paused ones in the queue. */
  ghost predicate Init(s: State) {
    && (forall j :: j in s.jobs ==> RecordInv(s.jobs[j]))
    && (forall j :: j in s.jobs ==> IsTerminal(s.jobs[j].status) || (j in s.queue && IsPaused(s.jobs[j].status)))
    && (forall i :: 0 <= i < |s.queue| ==> s.queue[i] in s.jobs && IsPaused(s.jobs[s.queue[i]].status))
    && (forall i, k :: 0 <= i < k < |s.queue| ==> s.queue[i] != s.queue[k])
    && s.requests == map[] && s.events == {} && s.operations == {} && s.worker.Idle? && s.shorts == map[]
    && s.execution == map[] && s.transition == map[] && s.signals == multiset{} && !s.closing
    && s.before == map[] && s.left == map[] && s.enqueued == s.queue && s.served == 0 && s.starts == []
    && s.abandoned == {}
  }

  /** The events can happen one after the other from `s`. */
  ghost predicate Possible(s: State, es: seq<Event>)
    decreases |es|
  {
    es == [] || (Enabled(s, es[0]) && Possible(Step(s, es[0]), es[1..]))
  }

  function Run(s: State, es: seq<Event>): State
    requires Possible(s, es)
    decreases |es|
  {
    if es == [] then s else Run(Step(s, es[0]), es[1..])
  }
}
