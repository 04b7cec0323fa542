/** What holds in every reachable state of the job engine, and the proof that every event keeps it. */
module JobEngineInv {
  import opened Common
  import opened JobRecord
  import opened JobEngine

  ghost predicate Records(s: State) {
    forall j :: j in s.jobs ==> RecordInv(s.jobs[j])
  }

  ghost predicate Domains(s: State) {
    && (!s.worker.Idle? ==> s.worker.id in s.jobs)
    && (forall j :: j in s.shorts ==> j in s.jobs && !s.jobs[j].resumable)
    && (forall j :: j in s.requests ==> j in s.jobs && s.jobs[j].resumable && !s.jobs[j].status.Queued?)
    && (!s.worker.Idle? && !s.worker.Fetched? ==> (s.worker.InSimple? <==> !s.jobs[s.worker.id].resumable))
  }

  /** An operation waits only for a queued job that is not resumable. */
  ghost predicate Operations(s: State) {
    forall j :: j in s.operations ==> j in s.jobs && s.jobs[j].status.Queued? && !s.jobs[j].resumable
  }

  /** The history variables speak of resumable jobs that have run. */
  ghost predicate Remembered(s: State) {
    && s.before.Keys == s.left.Keys
    && (forall j :: j in s.before ==> j in s.jobs && s.jobs[j].resumable && s.jobs[j].attempts > 0)
  }

  /** The long queue is what is left of everything enqueued; no job is enqueued twice. */
  ghost predicate Queueing(s: State) {
    && s.served <= |s.enqueued| && s.queue == s.enqueued[s.served..]
    && (forall i :: 0 <= i < |s.enqueued| ==> s.enqueued[i] in s.jobs && s.enqueued[i] !in s.shorts)
    && (forall i, k :: 0 <= i < k < |s.enqueued| ==> s.enqueued[i] != s.enqueued[k])
    && (!s.worker.Idle? ==> s.served > 0 && s.enqueued[s.served - 1] == s.worker.id)
  }

  ghost predicate Executes(s: State, j: JobId) {
    Holds(s.worker, j) || (j in s.shorts && s.shorts[j].ShortRun?)
  }

  ghost predicate OwnersExecute(s: State) {
    forall k :: k in s.execution ==>
      s.execution[k] in s.jobs && LockKey(s.jobs[s.execution[k]]) == k && Executes(s, s.execution[k])
  }

  ghost predicate ExecutorsOwn(s: State) {
    forall j :: j in s.jobs && Executes(s, j) ==>
      LockKey(s.jobs[j]) in s.execution && s.execution[LockKey(s.jobs[j])] == j
  }

  /** A lock is held exactly by the job that executes under it. */
  ghost predicate Locking(s: State) {
    OwnersExecute(s) && ExecutorsOwn(s)
  }

  predicate InsideTransition(w: Worker) {
    w.Checked? || w.Written? || w.PauseWritten? || w.InterruptWritten?
  }

  ghost predicate Transitions(s: State) {
    forall j :: (j in s.transition && s.transition[j] == ByWorker) <==> (InsideTransition(s.worker) && s.worker.id == j)
  }

  predicate Live(st: Status) {
    st.Running? || st.Pausing? || st.Stopping?
  }

  /** The status a job can show while the worker stands at `w` with it. */
  predicate Fits(w: Worker, st: Status)
    requires !w.Idle?
  {
    match w
    case Waiting(_) => IsPaused(st) || st.Stopping?
    case InRun(_) => Live(st)
    case Returned(_) => Live(st)
    case Checked(_) => Live(st)
    case Written(_) => st.Completed?
    case PauseSeen(_, _) => Live(st)
    case PauseWritten(_, _) => st.Paused?
    case InterruptSeen(_, _) => Live(st)
    case InterruptWritten(_) => IsPaused(st)
    case StopMark(_) => Live(st) || IsPaused(st)
    case StopRollback(_) => st.Stopping?
    case StopUndone(_) => st.Stopping?
    case StopStuck(_) => IsPaused(st) || st.Stopping?
    case FailRollback(_) => Live(st)
    case FailUndone(_) => Live(st)
    case InSimple(_) => st.Running?
    case _ => st.Queued? || st.Cancelled? || IsPaused(st) || st.Stopping?
  }

  ghost predicate WorkerShows(s: State) {
    !s.worker.Idle? && s.worker.id in s.jobs ==> Fits(s.worker, s.jobs[s.worker.id].status)
  }

  ghost predicate ShortsShow(s: State) {
    forall j :: j in s.shorts && j in s.jobs ==>
      if s.shorts[j].ShortRun? then s.jobs[j].status.Running?
      else s.jobs[j].status.Queued? || s.jobs[j].status.Cancelled?
  }

  predicate AtRest(st: Status) {
    st.Queued? || IsPaused(st) || st.Stopping? || IsTerminal(st)
  }

  ghost predicate OthersRest(s: State) {
    forall j :: j in s.jobs && Current(s.worker) != Some(j) && j !in s.shorts ==> AtRest(s.jobs[j].status)
  }

  ghost predicate QueueRests(s: State) {
    forall i :: s.served <= i < |s.enqueued| && s.enqueued[i] in s.jobs ==>
      var st := s.jobs[s.enqueued[i]].status;
      st.Queued? || st.Cancelled? || IsPaused(st) || st.Stopping?
  }

  /** What every job can show, wherever it is. */
  ghost predicate Statuses(s: State) {
    WorkerShows(s) && ShortsShow(s) && OthersRest(s) && QueueRests(s)
  }

  /** Jobs the worker has taken are finished, abandoned or the one it works on. */
  ghost predicate Settled(s: State) {
    forall i :: 0 <= i < s.served && i < |s.enqueued| ==>
      var j := s.enqueued[i];
      j in s.jobs && (IsTerminal(s.jobs[j].status) || j in s.abandoned || Current(s.worker) == Some(j))
  }

  ghost predicate Abandonment(s: State) {
    forall j :: j in s.abandoned ==>
      j in s.jobs && s.jobs[j].resumable && (IsPaused(s.jobs[j].status) || s.jobs[j].status.Stopping?)
      && Current(s.worker) != Some(j) && j !in s.queue
  }

  /** Every unfinished job is somewhere: abandoned, queued, in the short lane or with the worker. */
  ghost predicate Tracked(s: State) {
    forall j :: j in s.jobs && !IsTerminal(s.jobs[j].status) ==>
      j in s.abandoned || j in s.queue || j in s.shorts || Current(s.worker) == Some(j)
  }

  ghost predicate Served(s: State) {
    Settled(s) && Abandonment(s) && Tracked(s)
  }

  predicate InStop(w: Worker, j: JobId) {
    (w.StopMark? || w.StopRollback? || w.StopUndone? || w.StopStuck?) && w.id == j
  }

  ghost predicate StopOrPause(s: State, j: JobId) {
    Requested(s, j, StopRequest) || Requested(s, j, PauseRequest)
  }

  /** The accepted requests for a job agree with its status and with where the worker is. */
  ghost predicate RequestFits(s: State, j: JobId)
    requires j in s.jobs
  {
    && (s.jobs[j].status.Completed? ==> !StopOrPause(s, j))
    && (s.worker.Checked? && s.worker.id == j ==> !StopOrPause(s, j))
    && (s.jobs[j].status.Stopping? && j !in s.abandoned && !InStop(s.worker, j) ==> Requested(s, j, StopRequest))
    && ((s.worker.PauseWritten? || s.worker.InterruptWritten?) && s.worker.id == j ==> !Requested(s, j, StopRequest))
  }

  ghost predicate Requests(s: State) {
    forall j :: j in s.jobs ==> RequestFits(s, j)
  }

  /**
   The database of a job that first ran in this process is as the job left it while the job
   is unfinished, and as it was before the first run once a rollback has succeeded.
   */
  ghost predicate DataInv(s: State) {
    forall j :: j in s.before && j in s.jobs && j in s.left ==> DataFits(s, j)
  }

  ghost predicate DataFits(s: State, j: JobId)
    requires j in s.before && j in s.jobs && j in s.left
  {
    || IsTerminal(s.jobs[j].status) || j in s.abandoned
    || (&& Holds(s.worker, j)
        && DbAt(s, LockKey(s.jobs[j])) == s.left[j]
        && (s.worker.StopUndone? || s.worker.FailUndone? ==> DbAt(s, LockKey(s.jobs[j])) == s.before[j]))
  }

  ghost predicate StartOrder(s: State) {
    && (forall i, k :: 0 <= i <= k < |s.starts| ==> s.starts[i] <= s.starts[k])
    && (forall i :: 0 <= i < |s.starts| ==> 0 <= s.starts[i] < s.served)
  }

  ghost predicate Inv(s: State) {
    && Records(s) && Domains(s) && Operations(s) && Remembered(s) && Queueing(s) && Locking(s)
    && Transitions(s) && Statuses(s) && Served(s) && Requests(s) && DataInv(s) && StartOrder(s)
  }

  lemma InitInv(s: State)
    requires Init(s)
    ensures Inv(s)
  {
    hide RecordInv, LockKey;
    InitRests(s);
    hide Fits;
  }

  lemma InitRests(s: State)
    requires Init(s)
    ensures Records(s) && Operations(s) && Queueing(s) && Statuses(s) && Served(s) && Requests(s)
  {
    hide HistoryInv, LockKey;
  }

  // ----- The worker's moves -----

  /** What makes a move of the worker safe. */
  ghost predicate Sound(s: State, m: Move)
    requires !s.worker.Idle? && s.worker.id in s.jobs
  {
    var id := s.worker.id;
    var st := Value(m.patch.status, s.jobs[id].status);
    var stopKept := Requested(s, id, StopRequest) && !m.drop;
    var pauseKept := Requested(s, id, PauseRequest) && !m.drop;
    && Holds(s.worker, id)
    && Allowed(s.jobs[id], m.patch)
    && (m.next.Idle? ==> IsTerminal(st) || m.abandon)
    && (!m.next.Idle? ==> m.next.id == id && !m.next.Fetched? && (m.next.InSimple? <==> s.worker.InSimple?)
                          && Fits(m.next, st))
    && (m.hold <==> InsideTransition(m.next))
    && (m.hold && !InsideTransition(s.worker) ==> id !in s.transition)
    && (m.abandon ==> m.next.Idle? && !s.worker.InSimple? && (IsPaused(st) || st.Stopping?))
    && (m.begin ==> !s.worker.InSimple? && st.Running? && m.content.None?)
    && m.patch.status != Put(Queued)
    && (st.Completed? || m.next.Checked? ==> !stopKept && !pauseKept)
    && (st.Stopping? && !m.abandon && !InStop(m.next, id) ==> stopKept)
    && (m.next.PauseWritten? || m.next.InterruptWritten? ==> !stopKept)
    && (m.next.StopUndone? || m.next.FailUndone? ==>
          m.content.Some? && (id in s.before && id in s.left && s.left[id] == DbAt(s, LockKey(s.jobs[id]))
                              ==> m.content.value == s.before[id]))
  }

  /** What `Inv` says about the job the worker holds. */
  ghost predicate Local(s: State) {
    && !s.worker.Idle? && s.worker.id in s.jobs
    && (var id := s.worker.id;
        var job := s.jobs[id];
        && (s.worker.Fetched? || (s.worker.InSimple? <==> !job.resumable))
        && Fits(s.worker, job.status)
        && (HasRun(job.status) ==> job.attempts > 0)
        && (InsideTransition(s.worker) <==> id in s.transition && s.transition[id] == ByWorker)
        && (job.status.Completed? || s.worker.Checked? ==> !StopOrPause(s, id))
        && (id in s.requests ==> job.resumable && !job.status.Queued?)
        && (job.status.Stopping? && !InStop(s.worker, id) ==> Requested(s, id, StopRequest))
        && (s.worker.PauseWritten? || s.worker.InterruptWritten? ==> !Requested(s, id, StopRequest)))
  }

  lemma LocalFacts(s: State)
    requires Inv(s) && !s.worker.Idle?
    ensures Local(s)
  {
    hide HistoryInv;
  }

  lemma TopIsSound(s: State, a: Action)
    requires Local(s) && CanAct(s, a) && a.Top?
    ensures Sound(s, MoveOf(s, a))
  {
  }

  lemma WakeIsSound(s: State, a: Action)
    requires Local(s) && CanAct(s, a) && a.Wake?
    ensures Sound(s, MoveOf(s, a))
  {
  }

  lemma ResolveFailsIsSound(s: State, a: Action)
    requires Local(s) && CanAct(s, a) && a.ResolveFails?
    ensures Sound(s, MoveOf(s, a))
  {
  }

  lemma OpWriteIsSound(s: State, a: Action)
    requires Local(s) && CanAct(s, a) && a.OpWrite?
    ensures Sound(s, MoveOf(s, a))
  {
  }

  lemma OpProgressIsSound(s: State, a: Action)
    requires Local(s) && CanAct(s, a) && a.OpProgress?
    ensures Sound(s, MoveOf(s, a))
  {
  }

  lemma OpCheckpointIsSound(s: State, a: Action)
    requires Local(s) && CanAct(s, a) && a.OpCheckpoint?
    ensures Sound(s, MoveOf(s, a))
  {
  }

  lemma OpControlPointIsSound(s: State, a: Action)
    requires Local(s) && CanAct(s, a) && a.OpControlPoint?
    ensures Sound(s, MoveOf(s, a))
  {
  }

  lemma OpReturnsIsSound(s: State, a: Action)
    requires Local(s) && CanAct(s, a) && a.OpReturns?
    ensures Sound(s, MoveOf(s, a))
  {
  }

  lemma OpInterruptsIsSound(s: State, a: Action)
    requires Local(s) && CanAct(s, a) && a.OpInterrupts?
    ensures Sound(s, MoveOf(s, a))
  {
  }

  lemma OpFailsIsSound(s: State, a: Action)
    requires Local(s) && CanAct(s, a) && a.OpFails?
    ensures Sound(s, MoveOf(s, a))
  {
  }

  lemma CompleteCheckIsSound(s: State, a: Action)
    requires Local(s) && CanAct(s, a) && a.CompleteCheck?
    ensures Sound(s, MoveOf(s, a))
  {
  }

  lemma CompleteWriteIsSound(s: State, a: Action)
    requires Local(s) && CanAct(s, a) && a.CompleteWrite?
    ensures Sound(s, MoveOf(s, a))
  {
  }

  lemma CompleteReleaseIsSound(s: State, a: Action)
    requires Local(s) && CanAct(s, a) && a.CompleteRelease?
    ensures Sound(s, MoveOf(s, a))
  {
  }

  lemma PauseDecideIsSound(s: State, a: Action)
    requires Local(s) && CanAct(s, a) && a.PauseDecide?
    ensures Sound(s, MoveOf(s, a))
  {
  }

  lemma PauseDoneIsSound(s: State, a: Action)
    requires Local(s) && CanAct(s, a) && a.PauseDone?
    ensures Sound(s, MoveOf(s, a))
  {
  }

  lemma InterruptDecideIsSound(s: State, a: Action)
    requires Local(s) && CanAct(s, a) && a.InterruptDecide?
    ensures Sound(s, MoveOf(s, a))
  {
  }

  lemma InterruptDoneIsSound(s: State, a: Action)
    requires Local(s) && CanAct(s, a) && a.InterruptDone?
    ensures Sound(s, MoveOf(s, a))
  {
  }

  lemma MarkStoppingIsSound(s: State, a: Action)
    requires Local(s) && CanAct(s, a) && a.MarkStopping?
    ensures Sound(s, MoveOf(s, a))
  {
  }

  lemma StopUndoIsSound(s: State, a: Action)
    requires Local(s) && CanAct(s, a) && a.StopUndo?
    ensures Sound(s, MoveOf(s, a))
  {
  }

  lemma StopUndoFailsIsSound(s: State, a: Action)
    requires Local(s) && CanAct(s, a) && a.StopUndoFails?
    ensures Sound(s, MoveOf(s, a))
  {
  }

  lemma StopWriteIsSound(s: State, a: Action)
    requires Local(s) && CanAct(s, a) && a.StopWrite?
    ensures Sound(s, MoveOf(s, a))
  {
  }

  lemma StopAbandonIsSound(s: State, a: Action)
    requires Local(s) && CanAct(s, a) && a.StopAbandon?
    ensures Sound(s, MoveOf(s, a))
  {
  }

  lemma FailUndoIsSound(s: State, a: Action)
    requires Local(s) && CanAct(s, a) && a.FailUndo?
    ensures Sound(s, MoveOf(s, a))
  {
  }

  lemma FailUndoFailsIsSound(s: State, a: Action)
    requires Local(s) && CanAct(s, a) && a.FailUndoFails?
    ensures Sound(s, MoveOf(s, a))
  {
  }

  lemma FailWriteIsSound(s: State, a: Action)
    requires Local(s) && CanAct(s, a) && a.FailWrite?
    ensures Sound(s, MoveOf(s, a))
  {
  }

  lemma LongWriteIsSound(s: State, a: Action)
    requires Local(s) && CanAct(s, a) && a.LongWrite?
    ensures Sound(s, MoveOf(s, a))
  {
  }

  lemma LongProgressIsSound(s: State, a: Action)
    requires Local(s) && CanAct(s, a) && a.LongProgress?
    ensures Sound(s, MoveOf(s, a))
  {
  }

  lemma LongEndsIsSound(s: State, a: Action)
    requires Local(s) && CanAct(s, a) && a.LongEnds?
    ensures Sound(s, MoveOf(s, a))
  {
  }

  lemma MovesAreSound(s: State, a: Action)
    requires Local(s) && CanAct(s, a)
    ensures Sound(s, MoveOf(s, a))
  {
    hide Local, CanAct, Sound, MoveOf;
    match a
    case Top(_) => TopIsSound(s, a);
    case Wake(_) => WakeIsSound(s, a);
    case ResolveFails(_) => ResolveFailsIsSound(s, a);
    case OpWrite(_) => OpWriteIsSound(s, a);
    case OpProgress(_, _, _) => OpProgressIsSound(s, a);
    case OpCheckpoint(_, _, _, _) => OpCheckpointIsSound(s, a);
    case OpControlPoint => OpControlPointIsSound(s, a);
    case OpReturns => OpReturnsIsSound(s, a);
    case OpInterrupts(_) => OpInterruptsIsSound(s, a);
    case OpFails => OpFailsIsSound(s, a);
    case CompleteCheck => CompleteCheckIsSound(s, a);
    case CompleteWrite(_, _) => CompleteWriteIsSound(s, a);
    case CompleteRelease => CompleteReleaseIsSound(s, a);
    case PauseDecide(_) => PauseDecideIsSound(s, a);
    case PauseDone => PauseDoneIsSound(s, a);
    case InterruptDecide(_) => InterruptDecideIsSound(s, a);
    case InterruptDone => InterruptDoneIsSound(s, a);
    case MarkStopping(_) => MarkStoppingIsSound(s, a);
    case StopUndo(_) => StopUndoIsSound(s, a);
    case StopUndoFails(_, _) => StopUndoFailsIsSound(s, a);
    case StopWrite(_) => StopWriteIsSound(s, a);
    case StopAbandon => StopAbandonIsSound(s, a);
    case FailUndo(_) => FailUndoIsSound(s, a);
    case FailUndoFails(_, _) => FailUndoFailsIsSound(s, a);
    case FailWrite(_, _) => FailWriteIsSound(s, a);
    case LongWrite(_) => LongWriteIsSound(s, a);
    case LongProgress(_, _, _) => LongProgressIsSound(s, a);
    case LongEnds(_, _) => LongEndsIsSound(s, a);
  }

  /** `Do`, field by field. */
  lemma DoFrame(s: State, m: Move)
    requires !s.worker.Idle? && s.worker.id in s.jobs
    ensures var id := s.worker.id; var key := LockKey(s.jobs[id]); var r := Do(s, m);
      && r.jobs.Keys == s.jobs.Keys
      && (forall j :: j in s.jobs && j != id ==> r.jobs[j] == s.jobs[j])
      && r.jobs[id].status == Value(m.patch.status, s.jobs[id].status)
      && r.jobs[id].resumable == s.jobs[id].resumable && r.jobs[id].resourceKey == s.jobs[id].resourceKey
      && r.jobs[id].attempts >= s.jobs[id].attempts
      && (RecordInv(s.jobs[id]) && Allowed(s.jobs[id], m.patch) ==> RecordInv(r.jobs[id]))
      && r.worker == m.next && r.shorts == s.shorts && r.queue == s.queue && r.enqueued == s.enqueued
      && r.served == s.served && r.operations == s.operations
      && r.execution == (if m.next.Idle? then s.execution - {key} else s.execution)
      && r.transition == (if m.hold then s.transition[id := ByWorker]
                          else if id in s.transition && s.transition[id] == ByWorker then s.transition - {id}
                          else s.transition)
      && r.requests == (if m.drop then s.requests - {id} else s.requests)
      && r.abandoned == (if m.abandon then s.abandoned + {id} else s.abandoned)
      && r.starts == (if m.begin then s.starts + [s.served - 1] else s.starts)
  {
    hide Apply, Allowed, RecordInv;
  }

  lemma DoHistory(s: State, m: Move)
    requires !s.worker.Idle? && s.worker.id in s.jobs
    ensures var id := s.worker.id; var key := LockKey(s.jobs[id]); var r := Do(s, m);
      var first := m.begin && s.jobs[id].attempts == 0;
      && r.before == (if first then s.before[id := DbAt(s, key)] else s.before)
      && r.left == (if m.content.Some? && id in s.left then s.left[id := m.content.value]
                    else if first then s.left[id := DbAt(s, key)] else s.left)
      && r.db == (if m.content.Some? then s.db[key := m.content.value] else s.db)
  {
    hide Apply, Allowed, RecordInv;
  }

  lemma DoRecords(s: State, m: Move)
    requires Local(s) && Records(s) && Sound(s, m)
    ensures Records(Do(s, m))
  {
    hide Do, Fits, RecordInv;
    DoFrame(s, m);
  }

  lemma DoDomains(s: State, m: Move)
    requires Local(s) && Domains(s) && Sound(s, m)
    ensures Domains(Do(s, m))
  {
    hide Do, Fits, RecordInv, Allowed;
    DoFrame(s, m);
    forall j | j in Do(s, m).requests
      ensures j in Do(s, m).jobs && Do(s, m).jobs[j].resumable && !Do(s, m).jobs[j].status.Queued?
    {
      assert j in s.requests;
    }
  }

  lemma DoOperations(s: State, m: Move)
    requires Local(s) && Operations(s) && Sound(s, m)
    ensures Operations(Do(s, m))
  {
    hide Do, RecordInv, Allowed;
    DoFrame(s, m);
  }

  lemma BegunHasRun(s: State, m: Move)
    requires Local(s) && Records(s) && Sound(s, m) && m.begin
    ensures var job := Do(s, m).jobs[s.worker.id]; job.resumable && job.attempts > 0
  {
    hide Do, Fits, HistoryInv;
    DoFrame(s, m);
    assert RecordInv(Do(s, m).jobs[s.worker.id]);
  }

  lemma LocalHas(s: State)
    requires Local(s)
    ensures !s.worker.Idle? && s.worker.id in s.jobs
  {
    hide Fits;
  }

  lemma DoRemembered(s: State, m: Move)
    requires Local(s) && Records(s) && Remembered(s) && Sound(s, m)
    ensures Remembered(Do(s, m))
  {
    hide Do, Sound, Local, RecordInv, LockKey, DbAt;
    LocalHas(s);
    DoFrame(s, m);
    DoHistory(s, m);
    if m.begin {
      BegunHasRun(s, m);
    }
    var r := Do(s, m);
    forall j | j in r.before ensures j in r.jobs && r.jobs[j].resumable && r.jobs[j].attempts > 0 {
      assert j in s.before || (m.begin && j == s.worker.id);
    }
  }

  lemma DoQueueing(s: State, m: Move)
    requires Local(s) && Queueing(s) && Sound(s, m)
    ensures Queueing(Do(s, m))
  {
    hide Do, Fits, Allowed;
    DoFrame(s, m);
  }

  lemma DoOwners(s: State, m: Move)
    requires Local(s) && Queueing(s) && Locking(s) && Sound(s, m)
    ensures OwnersExecute(Do(s, m))
  {
    hide Do, Fits, Allowed, RecordInv, LockKey;
    DoFrame(s, m);
    SameKeys(s, Do(s, m));
    assert s.worker.id !in s.shorts;
  }

  lemma DoExecutors(s: State, m: Move)
    requires Local(s) && Queueing(s) && Locking(s) && Sound(s, m)
    ensures ExecutorsOwn(Do(s, m))
  {
    hide Do, Fits, Allowed, RecordInv, LockKey;
    DoFrame(s, m);
    SameKeys(s, Do(s, m));
    assert s.worker.id !in s.shorts;
  }

  lemma DoLocking(s: State, m: Move)
    requires Local(s) && Queueing(s) && Locking(s) && Sound(s, m)
    ensures Locking(Do(s, m))
  {
    DoOwners(s, m);
    DoExecutors(s, m);
  }

  lemma DoTransitions(s: State, m: Move)
    requires Local(s) && Transitions(s) && Sound(s, m)
    ensures Transitions(Do(s, m))
  {
    hide Do, Fits, Allowed, RecordInv;
    DoFrame(s, m);
  }

  lemma DoStatuses(s: State, m: Move)
    requires Local(s) && Domains(s) && Queueing(s) && Statuses(s) && Sound(s, m)
    ensures Statuses(Do(s, m))
  {
    hide Do, Fits, Allowed, RecordInv;
    DoFrame(s, m);
  }

  lemma DoSettled(s: State, m: Move)
    requires Local(s) && Queueing(s) && Settled(s) && Sound(s, m)
    ensures Settled(Do(s, m))
  {
    hide Do, Fits, Allowed, RecordInv;
    DoFrame(s, m);
  }

  lemma DoAbandonment(s: State, m: Move)
    requires Local(s) && Queueing(s) && Abandonment(s) && Sound(s, m)
    ensures Abandonment(Do(s, m))
  {
    hide Do, Fits, Allowed, RecordInv;
    DoFrame(s, m);
  }

  lemma DoTracked(s: State, m: Move)
    requires Local(s) && Tracked(s) && Sound(s, m)
    ensures Tracked(Do(s, m))
  {
    hide Do, Fits, Allowed, RecordInv;
    DoFrame(s, m);
  }

  lemma DoServed(s: State, m: Move)
    requires Local(s) && Queueing(s) && Served(s) && Sound(s, m)
    ensures Served(Do(s, m))
  {
    hide Do, Local, Queueing, Settled, Abandonment, Tracked, Sound;
    DoSettled(s, m);
    DoAbandonment(s, m);
    DoTracked(s, m);
  }

  lemma DoRequests(s: State, m: Move)
    requires Local(s) && Requests(s) && Sound(s, m)
    ensures Requests(Do(s, m))
  {
    hide Do, Fits, Allowed, RecordInv;
    DoFrame(s, m);
    var r := Do(s, m);
    forall j | j in r.jobs ensures RequestFits(r, j) {
      if j != s.worker.id {
        assert RequestFits(s, j);
        assert Requested(s, j, StopRequest) <==> Requested(r, j, StopRequest);
        assert Requested(s, j, PauseRequest) <==> Requested(r, j, PauseRequest);
      } else {
        assert Requested(r, j, StopRequest) <==> Requested(s, j, StopRequest) && !m.drop;
        assert Requested(r, j, PauseRequest) <==> Requested(s, j, PauseRequest) && !m.drop;
      }
    }
  }

  lemma DoDataFits(s: State, m: Move, j: JobId)
    requires Local(s) && Remembered(s) && DataInv(s) && Sound(s, m)
    requires j in Do(s, m).before && j in Do(s, m).jobs && j in Do(s, m).left
    ensures DataFits(Do(s, m), j)
  {
    hide Do, Fits, RecordInv;
    DoFrame(s, m);
    DoHistory(s, m);
    if j in s.before {
      assert DataFits(s, j);
    }
  }

  lemma DoData(s: State, m: Move)
    requires Local(s) && Remembered(s) && DataInv(s) && Sound(s, m)
    ensures DataInv(Do(s, m))
  {
    LocalHas(s);
    hide Local, Remembered, Do, Sound, DataFits;
    var r := Do(s, m);
    forall j | j in r.before && j in r.jobs && j in r.left ensures DataFits(r, j) {
      DoDataFits(s, m, j);
    }
  }

  lemma DoStartOrder(s: State, m: Move)
    requires Local(s) && Queueing(s) && StartOrder(s) && Sound(s, m)
    ensures StartOrder(Do(s, m))
  {
    hide Do, Fits, Allowed, RecordInv;
    DoFrame(s, m);
  }

  lemma MoveKeepsInv(s: State, a: Action)
    requires Inv(s) && CanAct(s, a)
    ensures Inv(Do(s, MoveOf(s, a)))
  {
    hide Records, Domains, Operations, Remembered, Queueing, Locking, Transitions, Statuses, Served, Requests,
         DataInv, StartOrder;
    hide Do, MoveOf, Sound, Local;
    LocalFacts(s);
    MovesAreSound(s, a);
    var m := MoveOf(s, a);
    DoRecords(s, m);
    DoDomains(s, m);
    DoOperations(s, m);
    DoRemembered(s, m);
    DoQueueing(s, m);
    DoLocking(s, m);
    DoTransitions(s, m);
    DoStatuses(s, m);
    DoServed(s, m);
    DoRequests(s, m);
    DoData(s, m);
    DoStartOrder(s, m);
  }

  // ----- Calls from outside -----

  function Asked(s: State, j: JobId, ask: Ask, r: Request): bool {
    match ask case Same => Requested(s, j, r) case Pop => false case Set(q) => q == r
  }

  /** What makes a call on job `j` safe. */
  ghost predicate SoundPoke(s: State, j: JobId, p: Patch, ask: Ask, lock: Option<Holder>)
    requires j in s.jobs
  {
    var st := Value(p.status, s.jobs[j].status);
    && Allowed(s.jobs[j], p) && !st.Queued? && j !in s.operations
    && (Current(s.worker) == Some(j) ==> Fits(s.worker, st))
    && (j in s.shorts ==> s.shorts[j].ShortWait? && st.Cancelled?)
    && (Current(s.worker) != Some(j) ==> IsPaused(st) || st.Stopping? || st.Cancelled?)
    && (ask.Set? ==> s.jobs[j].resumable)
    && (st.Cancelled? ==> j !in s.abandoned)
    && (lock.Some? ==> j !in s.transition && !lock.value.ByWorker?)
    && !st.Completed?
    && (s.worker.Checked? && s.worker.id == j ==> !Asked(s, j, ask, StopRequest) && !Asked(s, j, ask, PauseRequest))
    && (st.Stopping? ==> Asked(s, j, ask, StopRequest))
    && ((s.worker.PauseWritten? || s.worker.InterruptWritten?) && s.worker.id == j ==> !Asked(s, j, ask, StopRequest))
  }

  /** `Poke`, field by field. */
  lemma PokeFrame(s: State, j: JobId, p: Patch, now: int, ask: Ask, lock: Option<Holder>, signal: bool)
    requires j in s.jobs
    ensures var r := Poke(s, j, p, now, ask, lock, signal);
      && r.jobs.Keys == s.jobs.Keys
      && (forall k :: k in s.jobs && k != j ==> r.jobs[k] == s.jobs[k])
      && r.jobs[j].status == Value(p.status, s.jobs[j].status)
      && r.jobs[j].resumable == s.jobs[j].resumable && r.jobs[j].resourceKey == s.jobs[j].resourceKey
      && r.jobs[j].attempts >= s.jobs[j].attempts
      && (RecordInv(s.jobs[j]) && Allowed(s.jobs[j], p) ==> RecordInv(r.jobs[j]))
      && r == s.(jobs := r.jobs, requests := r.requests, transition := r.transition, signals := r.signals)
      && r.transition == (if lock.Some? then s.transition[j := lock.value] else s.transition)
      && (forall q :: Requested(r, j, q) <==> Asked(s, j, ask, q))
      && (forall k, q :: k != j ==> (Requested(r, k, q) <==> Requested(s, k, q)))
      && (forall k :: k in r.requests ==> k in s.requests || (k == j && ask.Set?))
  {
    hide Apply, Allowed, RecordInv;
  }

  lemma PokeRecords(s: State, j: JobId, p: Patch, now: int, ask: Ask, lock: Option<Holder>, signal: bool)
    requires Records(s) && j in s.jobs && SoundPoke(s, j, p, ask, lock)
    ensures Records(Poke(s, j, p, now, ask, lock, signal))
  {
    hide Poke, Fits, HistoryInv;
    PokeFrame(s, j, p, now, ask, lock, signal);
  }

  lemma PokeDomains(s: State, j: JobId, p: Patch, now: int, ask: Ask, lock: Option<Holder>, signal: bool)
    requires Domains(s) && j in s.jobs && SoundPoke(s, j, p, ask, lock)
    ensures Domains(Poke(s, j, p, now, ask, lock, signal))
  {
    hide Poke, Fits, RecordInv, Allowed;
    PokeFrame(s, j, p, now, ask, lock, signal);
    var r := Poke(s, j, p, now, ask, lock, signal);
    forall k | k in r.requests ensures k in r.jobs && r.jobs[k].resumable && !r.jobs[k].status.Queued? {
      assert k in s.requests || k == j;
    }
  }

  lemma PokeOperations(s: State, j: JobId, p: Patch, now: int, ask: Ask, lock: Option<Holder>, signal: bool)
    requires Operations(s) && j in s.jobs && SoundPoke(s, j, p, ask, lock)
    ensures Operations(Poke(s, j, p, now, ask, lock, signal))
  {
    hide Poke, Fits, RecordInv;
    PokeFrame(s, j, p, now, ask, lock, signal);
  }

  lemma PokeRemembered(s: State, j: JobId, p: Patch, now: int, ask: Ask, lock: Option<Holder>, signal: bool)
    requires Remembered(s) && j in s.jobs && SoundPoke(s, j, p, ask, lock)
    ensures Remembered(Poke(s, j, p, now, ask, lock, signal))
  {
    hide Poke, Fits, RecordInv;
    PokeFrame(s, j, p, now, ask, lock, signal);
  }

  lemma PokeQueueing(s: State, j: JobId, p: Patch, now: int, ask: Ask, lock: Option<Holder>, signal: bool)
    requires Queueing(s) && j in s.jobs && SoundPoke(s, j, p, ask, lock)
    ensures Queueing(Poke(s, j, p, now, ask, lock, signal))
  {
    hide Poke, Fits, RecordInv;
    PokeFrame(s, j, p, now, ask, lock, signal);
  }

  /** `Locking` depends on nothing but the locks, the keys of the jobs and where they execute. */
  lemma LockingSame(s: State, r: State)
    requires Locking(s) && r.execution == s.execution && r.worker == s.worker && r.shorts == s.shorts
    requires r.jobs.Keys == s.jobs.Keys && forall k :: k in s.jobs ==> LockKey(r.jobs[k]) == LockKey(s.jobs[k])
    ensures Locking(r)
  {
    hide LockKey, Holds;
  }

  lemma PokeLocking(s: State, j: JobId, p: Patch, now: int, ask: Ask, lock: Option<Holder>, signal: bool)
    requires Locking(s) && j in s.jobs && SoundPoke(s, j, p, ask, lock)
    ensures Locking(Poke(s, j, p, now, ask, lock, signal))
  {
    hide Poke, Fits, RecordInv, SoundPoke, Locking;
    PokeFrame(s, j, p, now, ask, lock, signal);
    LockingSame(s, Poke(s, j, p, now, ask, lock, signal));
  }

  lemma PokeTransitions(s: State, j: JobId, p: Patch, now: int, ask: Ask, lock: Option<Holder>, signal: bool)
    requires Transitions(s) && j in s.jobs && SoundPoke(s, j, p, ask, lock)
    ensures Transitions(Poke(s, j, p, now, ask, lock, signal))
  {
    hide Poke, Fits, RecordInv;
    PokeFrame(s, j, p, now, ask, lock, signal);
  }

  lemma PokeStatuses(s: State, j: JobId, p: Patch, now: int, ask: Ask, lock: Option<Holder>, signal: bool)
    requires Domains(s) && Queueing(s) && Statuses(s) && j in s.jobs && SoundPoke(s, j, p, ask, lock)
    ensures Statuses(Poke(s, j, p, now, ask, lock, signal))
  {
    hide Poke, Fits, RecordInv;
    PokeFrame(s, j, p, now, ask, lock, signal);
  }

  lemma PokeServed(s: State, j: JobId, p: Patch, now: int, ask: Ask, lock: Option<Holder>, signal: bool)
    requires Served(s) && j in s.jobs && SoundPoke(s, j, p, ask, lock)
    ensures Served(Poke(s, j, p, now, ask, lock, signal))
  {
    hide Poke, Fits, RecordInv;
    PokeFrame(s, j, p, now, ask, lock, signal);
  }

  lemma PokeRequests(s: State, j: JobId, p: Patch, now: int, ask: Ask, lock: Option<Holder>, signal: bool)
    requires Requests(s) && j in s.jobs && SoundPoke(s, j, p, ask, lock)
    ensures Requests(Poke(s, j, p, now, ask, lock, signal))
  {
    hide Poke, Fits, RecordInv;
    PokeFrame(s, j, p, now, ask, lock, signal);
  }

  lemma PokeDataInv(s: State, j: JobId, p: Patch, now: int, ask: Ask, lock: Option<Holder>, signal: bool)
    requires Remembered(s) && DataInv(s) && j in s.jobs && SoundPoke(s, j, p, ask, lock)
    ensures DataInv(Poke(s, j, p, now, ask, lock, signal))
  {
    hide Poke, Fits, RecordInv;
    PokeFrame(s, j, p, now, ask, lock, signal);
  }

  lemma PokeStartOrder(s: State, j: JobId, p: Patch, now: int, ask: Ask, lock: Option<Holder>, signal: bool)
    requires StartOrder(s) && j in s.jobs && SoundPoke(s, j, p, ask, lock)
    ensures StartOrder(Poke(s, j, p, now, ask, lock, signal))
  {
    hide Poke, Fits, RecordInv;
    PokeFrame(s, j, p, now, ask, lock, signal);
  }

  lemma PokeKeepsInv(s: State, j: JobId, p: Patch, now: int, ask: Ask, lock: Option<Holder>, signal: bool)
    requires Inv(s) && j in s.jobs && SoundPoke(s, j, p, ask, lock)
    ensures Inv(Poke(s, j, p, now, ask, lock, signal))
  {
    hide Records, Domains, Operations, Remembered, Queueing, Locking, Transitions, Statuses, Served, Requests,
         DataInv, StartOrder;
    hide Poke, SoundPoke;
    PokeRecords(s, j, p, now, ask, lock, signal);
    PokeDomains(s, j, p, now, ask, lock, signal);
    PokeOperations(s, j, p, now, ask, lock, signal);
    PokeRemembered(s, j, p, now, ask, lock, signal);
    PokeQueueing(s, j, p, now, ask, lock, signal);
    PokeLocking(s, j, p, now, ask, lock, signal);
    PokeTransitions(s, j, p, now, ask, lock, signal);
    PokeStatuses(s, j, p, now, ask, lock, signal);
    PokeServed(s, j, p, now, ask, lock, signal);
    PokeRequests(s, j, p, now, ask, lock, signal);
    PokeDataInv(s, j, p, now, ask, lock, signal);
    PokeStartOrder(s, j, p, now, ask, lock, signal);
  }

  lemma PauseIsSound(s: State, e: Call)
    requires Records(s) && Domains(s) && Operations(s) && Transitions(s) && Statuses(s) && CanCall(s, e) && e.Pause?
    ensures SoundPoke(s, e.id, PAUSE_PATCH, Set(PauseRequest), Some(ByPause))
  {
    hide HistoryInv;
    assert RecordInv(s.jobs[e.id]);
  }

  lemma StopIsSound(s: State, e: Call)
    requires Records(s) && Domains(s) && Operations(s) && Transitions(s) && Statuses(s) && CanCall(s, e) && e.Stop?
    ensures SoundPoke(s, e.id, STOP_PATCH, Set(StopRequest), Some(ByStop))
  {
    hide HistoryInv;
    assert RecordInv(s.jobs[e.id]);
  }

  lemma ShutdownIsSound(s: State, e: Call)
    requires Records(s) && Domains(s) && Operations(s) && Transitions(s) && Statuses(s) && CanCall(s, e) && e.Shutdown?
    ensures SoundPoke(s, e.id, SHUTDOWN_PATCH, Set(ShutdownRequest), None)
  {
    hide HistoryInv;
    assert RecordInv(s.jobs[e.id]);
  }

  lemma PauseStopAreSound(s: State, e: Call)
    requires Records(s) && Domains(s) && Operations(s) && Transitions(s) && Statuses(s) && Served(s) && CanCall(s, e)
    ensures e.Pause? ==> SoundPoke(s, e.id, PAUSE_PATCH, Set(PauseRequest), Some(ByPause))
    ensures e.Stop? ==> SoundPoke(s, e.id, STOP_PATCH, Set(StopRequest), Some(ByStop))
    ensures e.Shutdown? ==> SoundPoke(s, e.id, SHUTDOWN_PATCH, Set(ShutdownRequest), None)
  {
    hide Records, Domains, Operations, Transitions, Statuses, Served, SoundPoke;
    if e.Pause? {
      PauseIsSound(s, e);
    } else if e.Stop? {
      StopIsSound(s, e);
    } else if e.Shutdown? {
      ShutdownIsSound(s, e);
    }
  }

  lemma ResumeIsSound(s: State, e: Call)
    requires Records(s) && Domains(s) && Operations(s) && Statuses(s) && CanCall(s, e) && e.Resume?
    ensures SoundPoke(s, e.id, RESUME_PATCH, Pop, None)
  {
    hide HistoryInv;
    assert RecordInv(s.jobs[e.id]);
  }

  lemma CancelIsSound(s: State, e: Call)
    requires Records(s) && Domains(s) && Statuses(s) && Abandonment(s) && CanCall(s, e)
    requires e.Cancel? && e.id !in s.operations
    ensures SoundPoke(s, e.id, CancelPatch(e.why), Same, None)
  {
    hide RecordInv;
  }

  lemma ResumeCancelAreSound(s: State, e: Call)
    requires Records(s) && Domains(s) && Operations(s) && Statuses(s) && Served(s) && CanCall(s, e)
    ensures e.Resume? ==> SoundPoke(s, e.id, RESUME_PATCH, Pop, None)
    ensures e.Cancel? && e.id !in s.operations ==> SoundPoke(s, e.id, CancelPatch(e.why), Same, None)
  {
    hide Records, Domains, Operations, Statuses, SoundPoke;
    if e.Resume? {
      ResumeIsSound(s, e);
    } else if e.Cancel? && e.id !in s.operations {
      CancelIsSound(s, e);
    }
  }

  // ----- Jobs in the short lane and jobs entering the worker -----

  ghost predicate SoundShift(s: State, j: JobId, x: Shift)
    requires j in s.jobs
  {
    var job := s.jobs[j];
    var st := Value(x.patch.status, job.status);
    && Allowed(job, x.patch) && x.patch.status != Put(Queued)
    && (x.lock.Grab? ==> LockKey(job) !in s.execution)
    && (x.drop || j !in s.operations)
    && (j in s.shorts ==>
          && x.worker == s.worker && !job.resumable && !x.start
          && (if x.short.Some? then x.short.value.ShortRun? && st.Running? else IsTerminal(st))
          && (match x.lock
              case Grab => s.shorts[j].ShortWait? && x.short.Some?
              case Free => s.shorts[j].ShortRun? && x.short.None?
              case Stay => (s.shorts[j].ShortRun? <==> x.short.Some?))
          && (x.content.Some? ==> s.shorts[j].ShortRun?))
    && (j !in s.shorts ==>
          && s.worker == Fetched(j) && x.short.None? && x.content.None?
          && (if x.lock.Grab? then
                if job.resumable then x.worker == AtTop(j) && x.patch == NOTHING && !x.start
                else x.worker == InSimple(j) && st.Running?
              else x.lock.Stay? && x.worker.Idle? && IsTerminal(st) && !job.resumable && !x.start))
  }

  lemma ShortAcquireIsSound(s: State, e: Brief)
    requires Records(s) && Domains(s) && Operations(s) && ShortsShow(s) && CanBrief(s, e) && e.ShortAcquire?
    ensures SoundShift(s, e.id, BriefShift(s, e))
  {
    hide HistoryInv, Fits;
    assert RecordInv(s.jobs[e.id]);
  }

  lemma ShortStepIsSound(s: State, e: Brief)
    requires Records(s) && Domains(s) && Operations(s) && ShortsShow(s) && CanBrief(s, e)
    requires e.ShortWrite? || e.ShortProgress?
    ensures SoundShift(s, e.id, BriefShift(s, e))
  {
    hide HistoryInv, Fits;
    assert RecordInv(s.jobs[e.id]);
  }

  lemma ShortEndsIsSound(s: State, e: Brief)
    requires Records(s) && Domains(s) && Operations(s) && ShortsShow(s) && CanBrief(s, e) && e.ShortEnds?
    ensures SoundShift(s, e.id, BriefShift(s, e))
  {
    hide HistoryInv, Fits;
    assert RecordInv(s.jobs[e.id]);
  }

  lemma BriefsAreSound(s: State, e: Brief)
    requires Records(s) && Domains(s) && Operations(s) && Statuses(s) && CanBrief(s, e)
    ensures SoundShift(s, e.id, BriefShift(s, e))
  {
    hide Records, Domains, Operations, ShortsShow, CanBrief, BriefShift, SoundShift;
    match e
    case ShortAcquire(_, _) => ShortAcquireIsSound(s, e);
    case ShortWrite(_, _) => ShortStepIsSound(s, e);
    case ShortProgress(_, _, _, _) => ShortStepIsSound(s, e);
    case ShortEnds(_, _, _) => ShortEndsIsSound(s, e);
  }

  lemma AcquireIsSound(s: State, now: int)
    requires Records(s) && Domains(s) && Operations(s) && Queueing(s) && Statuses(s) && CanAcquire(s)
    ensures SoundShift(s, s.worker.id, AcquireShift(s, now))
  {
    hide HistoryInv;
    assert RecordInv(s.jobs[s.worker.id]);
  }

  /** `Shifted`, field by field. */
  lemma ShiftFrame(s: State, j: JobId, x: Shift)
    requires j in s.jobs
    ensures var key := LockKey(s.jobs[j]); var r := Shifted(s, j, x);
      && r.jobs.Keys == s.jobs.Keys
      && (forall k :: k in s.jobs && k != j ==> r.jobs[k] == s.jobs[k])
      && r.jobs[j].status == Value(x.patch.status, s.jobs[j].status)
      && r.jobs[j].resumable == s.jobs[j].resumable && r.jobs[j].resourceKey == s.jobs[j].resourceKey
      && r.jobs[j].attempts >= s.jobs[j].attempts
      && (RecordInv(s.jobs[j]) && Allowed(s.jobs[j], x.patch) ==> RecordInv(r.jobs[j]))
      && r.worker == x.worker && r.queue == s.queue && r.enqueued == s.enqueued && r.served == s.served
      && r.shorts == (if x.short.Some? then s.shorts[j := x.short.value] else s.shorts - {j})
      && r.execution == (if x.lock.Grab? then s.execution[key := j]
                         else if x.lock.Free? then s.execution - {key} else s.execution)
      && r.starts == (if x.start then s.starts + [s.served - 1] else s.starts)
      && r.db == (if x.content.Some? then s.db[key := x.content.value] else s.db)
      && r.transition == s.transition && r.requests == s.requests && r.abandoned == s.abandoned
      && r.before == s.before && r.left == s.left
      && r.operations == (if x.drop then s.operations - {j} else s.operations)
  {
    hide Apply, Allowed, RecordInv;
  }

  lemma ShiftRecords(s: State, j: JobId, x: Shift)
    requires Records(s) && j in s.jobs && SoundShift(s, j, x)
    ensures Records(Shifted(s, j, x))
  {
    hide Shifted, Fits, HistoryInv;
    ShiftFrame(s, j, x);
  }

  lemma ShiftDomains(s: State, j: JobId, x: Shift)
    requires Domains(s) && j in s.jobs && SoundShift(s, j, x)
    ensures Domains(Shifted(s, j, x))
  {
    hide Shifted, Fits, RecordInv, Allowed, LockKey;
    ShiftFrame(s, j, x);
    var r := Shifted(s, j, x);
    forall k | k in r.requests ensures k in r.jobs && r.jobs[k].resumable && !r.jobs[k].status.Queued? {
      assert k in s.requests || k == j;
    }
  }

  lemma ShiftOperations(s: State, j: JobId, x: Shift)
    requires Operations(s) && j in s.jobs && SoundShift(s, j, x)
    ensures Operations(Shifted(s, j, x))
  {
    hide Shifted, RecordInv, Allowed;
    ShiftFrame(s, j, x);
  }

  lemma ShiftRemembered(s: State, j: JobId, x: Shift)
    requires Remembered(s) && j in s.jobs && SoundShift(s, j, x)
    ensures Remembered(Shifted(s, j, x))
  {
    hide Shifted, Fits, RecordInv, Allowed;
    ShiftFrame(s, j, x);
  }

  lemma ShiftQueueing(s: State, j: JobId, x: Shift)
    requires Queueing(s) && j in s.jobs && SoundShift(s, j, x)
    ensures Queueing(Shifted(s, j, x))
  {
    hide Shifted, Fits, RecordInv, Allowed;
    ShiftFrame(s, j, x);
  }

  /** Which jobs execute after a shift: only `j` can have started or ended, and its lock goes along. */
  lemma ShiftExecutes(s: State, j: JobId, x: Shift)
    requires Queueing(s) && j in s.jobs && SoundShift(s, j, x)
    ensures var r := Shifted(s, j, x);
      && (forall k :: k != j ==> (Executes(r, k) <==> Executes(s, k)))
      && (Executes(r, j) <==> x.lock.Grab? || (x.lock.Stay? && Executes(s, j)))
      && (x.lock.Grab? ==> !Executes(s, j) && LockKey(s.jobs[j]) !in s.execution)
      && (x.lock.Free? ==> Executes(s, j))
  {
    hide Shifted, Fits, RecordInv, Allowed, LockKey;
    ShiftFrame(s, j, x);
  }

  lemma ShiftOwners(s: State, j: JobId, x: Shift)
    requires Queueing(s) && Locking(s) && j in s.jobs && SoundShift(s, j, x)
    ensures OwnersExecute(Shifted(s, j, x))
  {
    hide Shifted, SoundShift, Queueing, Executes, LockKey;
    ShiftExecutes(s, j, x);
    ShiftFrame(s, j, x);
    SameKeys(s, Shifted(s, j, x));
  }

  lemma ShiftExecutors(s: State, j: JobId, x: Shift)
    requires Queueing(s) && Locking(s) && j in s.jobs && SoundShift(s, j, x)
    ensures ExecutorsOwn(Shifted(s, j, x))
  {
    hide Shifted, SoundShift, Queueing, Executes, LockKey;
    ShiftExecutes(s, j, x);
    ShiftFrame(s, j, x);
    SameKeys(s, Shifted(s, j, x));
  }

  lemma ShiftLocking(s: State, j: JobId, x: Shift)
    requires Queueing(s) && Locking(s) && j in s.jobs && SoundShift(s, j, x)
    ensures Locking(Shifted(s, j, x))
  {
    ShiftOwners(s, j, x);
    ShiftExecutors(s, j, x);
  }

  lemma SameKeys(s: State, r: State)
    requires r.jobs.Keys == s.jobs.Keys && forall k :: k in s.jobs ==> r.jobs[k].resourceKey == s.jobs[k].resourceKey
    ensures forall k :: k in s.jobs ==> LockKey(r.jobs[k]) == LockKey(s.jobs[k])
  {
  }

  lemma ShiftTransitions(s: State, j: JobId, x: Shift)
    requires Transitions(s) && j in s.jobs && SoundShift(s, j, x)
    ensures Transitions(Shifted(s, j, x))
  {
    hide Shifted, Fits, RecordInv, Allowed;
    ShiftFrame(s, j, x);
  }

  lemma ShiftWorkerShows(s: State, j: JobId, x: Shift)
    requires Domains(s) && WorkerShows(s) && j in s.jobs && SoundShift(s, j, x)
    requires !s.worker.Idle? && s.worker.id == j ==> j !in s.shorts
    ensures WorkerShows(Shifted(s, j, x))
  {
    hide Shifted, RecordInv, Allowed;
    ShiftFrame(s, j, x);
  }

  lemma ShiftShortsShow(s: State, j: JobId, x: Shift)
    requires ShortsShow(s) && j in s.jobs && SoundShift(s, j, x)
    ensures ShortsShow(Shifted(s, j, x))
  {
    hide Shifted, RecordInv, Allowed, Fits;
    ShiftFrame(s, j, x);
  }

  lemma ShiftOthersRest(s: State, j: JobId, x: Shift)
    requires OthersRest(s) && j in s.jobs && SoundShift(s, j, x)
    ensures OthersRest(Shifted(s, j, x))
  {
    hide Shifted, RecordInv, Allowed, Fits;
    ShiftFrame(s, j, x);
  }

  lemma ShiftQueueRests(s: State, j: JobId, x: Shift)
    requires Queueing(s) && QueueRests(s) && j in s.jobs && SoundShift(s, j, x)
    ensures QueueRests(Shifted(s, j, x))
  {
    hide Shifted, RecordInv, Allowed, Fits;
    ShiftFrame(s, j, x);
  }

  lemma ShiftStatuses(s: State, j: JobId, x: Shift)
    requires Domains(s) && Queueing(s) && Statuses(s) && j in s.jobs && SoundShift(s, j, x)
    ensures Statuses(Shifted(s, j, x))
  {
    hide Shifted, SoundShift, WorkerShows, ShortsShow, OthersRest, QueueRests;
    ShiftWorkerShows(s, j, x);
    ShiftShortsShow(s, j, x);
    ShiftOthersRest(s, j, x);
    ShiftQueueRests(s, j, x);
  }

  lemma ShiftSettled(s: State, j: JobId, x: Shift)
    requires Queueing(s) && Settled(s) && j in s.jobs && SoundShift(s, j, x)
    ensures Settled(Shifted(s, j, x))
  {
    hide Shifted, Fits, RecordInv, Allowed;
    ShiftFrame(s, j, x);
  }

  lemma ShiftAbandonment(s: State, j: JobId, x: Shift)
    requires Domains(s) && Queueing(s) && Abandonment(s) && j in s.jobs && SoundShift(s, j, x)
    ensures Abandonment(Shifted(s, j, x))
  {
    hide Shifted, Fits, RecordInv, Allowed;
    ShiftFrame(s, j, x);
  }

  lemma ShiftTracked(s: State, j: JobId, x: Shift)
    requires Queueing(s) && Tracked(s) && j in s.jobs && SoundShift(s, j, x)
    ensures Tracked(Shifted(s, j, x))
  {
    hide Shifted, Fits, RecordInv, Allowed;
    ShiftFrame(s, j, x);
  }

  lemma ShiftServed(s: State, j: JobId, x: Shift)
    requires Domains(s) && Queueing(s) && Served(s) && j in s.jobs && SoundShift(s, j, x)
    ensures Served(Shifted(s, j, x))
  {
    hide Shifted, SoundShift, Domains, Queueing, Settled, Abandonment, Tracked;
    ShiftSettled(s, j, x);
    ShiftAbandonment(s, j, x);
    ShiftTracked(s, j, x);
  }

  lemma ShiftRequestFits(s: State, j: JobId, x: Shift, k: JobId)
    requires Domains(s) && j in s.jobs && SoundShift(s, j, x) && k in s.jobs && RequestFits(s, k)
    ensures k in Shifted(s, j, x).jobs && RequestFits(Shifted(s, j, x), k)
  {
    hide Shifted, Fits, RecordInv, Allowed;
    ShiftFrame(s, j, x);
  }

  lemma ShiftRequests(s: State, j: JobId, x: Shift)
    requires Domains(s) && Requests(s) && j in s.jobs && SoundShift(s, j, x)
    ensures Requests(Shifted(s, j, x))
  {
    hide Shifted, SoundShift, RequestFits, Domains;
    ShiftFrame(s, j, x);
    var r := Shifted(s, j, x);
    forall k | k in r.jobs ensures RequestFits(r, k) {
      ShiftRequestFits(s, j, x, k);
    }
  }

  lemma ShiftDataInv(s: State, j: JobId, x: Shift)
    requires Queueing(s) && Remembered(s) && Locking(s) && DataInv(s) && j in s.jobs && SoundShift(s, j, x)
    ensures DataInv(Shifted(s, j, x))
  {
    hide Shifted, Fits, RecordInv, Allowed;
    ShiftFrame(s, j, x);
  }

  lemma ShiftStartOrder(s: State, j: JobId, x: Shift)
    requires Queueing(s) && StartOrder(s) && j in s.jobs && SoundShift(s, j, x)
    ensures StartOrder(Shifted(s, j, x))
  {
    hide Shifted, Fits, RecordInv, Allowed;
    ShiftFrame(s, j, x);
  }

  // ----- New jobs, the queue and the transition locks -----

  lemma AddRecords(s: State, j: JobId, job: Job, long: bool)
    requires Records(s) && j !in s.jobs && RecordInv(job) && job.status.Queued? && (!long ==> !job.resumable)
    ensures Records(AddJob(s, j, job, long))
  {
    hide HistoryInv, Fits;
  }

  lemma AddDomains(s: State, j: JobId, job: Job, long: bool)
    requires Domains(s) && j !in s.jobs && RecordInv(job) && job.status.Queued? && (!long ==> !job.resumable)
    ensures Domains(AddJob(s, j, job, long))
  {
    hide HistoryInv, Fits;
  }

  lemma AddOperations(s: State, j: JobId, job: Job, long: bool)
    requires Operations(s) && j !in s.jobs && RecordInv(job) && job.status.Queued? && (!long ==> !job.resumable)
    ensures Operations(AddJob(s, j, job, long))
  {
    hide HistoryInv, Fits;
  }

  lemma AddRemembered(s: State, j: JobId, job: Job, long: bool)
    requires Remembered(s) && j !in s.jobs && RecordInv(job) && job.status.Queued? && (!long ==> !job.resumable)
    ensures Remembered(AddJob(s, j, job, long))
  {
    hide HistoryInv, Fits;
  }

  lemma AddQueueing(s: State, j: JobId, job: Job, long: bool)
    requires Domains(s) && Queueing(s) && j !in s.jobs && RecordInv(job) && job.status.Queued?
    requires !long ==> !job.resumable
    ensures Queueing(AddJob(s, j, job, long))
  {
    hide HistoryInv, Fits;
  }

  lemma AddOwners(s: State, j: JobId, job: Job, long: bool)
    requires Domains(s) && OwnersExecute(s) && j !in s.jobs && RecordInv(job) && job.status.Queued?
    requires !long ==> !job.resumable
    ensures OwnersExecute(AddJob(s, j, job, long))
  {
    hide RecordInv, Fits, LockKey;
  }

  lemma AddExecutors(s: State, j: JobId, job: Job, long: bool)
    requires Domains(s) && ExecutorsOwn(s) && j !in s.jobs && RecordInv(job) && job.status.Queued?
    requires !long ==> !job.resumable
    ensures ExecutorsOwn(AddJob(s, j, job, long))
  {
    hide RecordInv, Fits, LockKey;
  }

  lemma AddLocking(s: State, j: JobId, job: Job, long: bool)
    requires Domains(s) && Locking(s) && j !in s.jobs && RecordInv(job) && job.status.Queued?
    requires !long ==> !job.resumable
    ensures Locking(AddJob(s, j, job, long))
  {
    hide AddJob, OwnersExecute, ExecutorsOwn;
    AddOwners(s, j, job, long);
    AddExecutors(s, j, job, long);
  }

  lemma AddTransitions(s: State, j: JobId, job: Job, long: bool)
    requires Transitions(s) && j !in s.jobs && RecordInv(job) && job.status.Queued? && (!long ==> !job.resumable)
    ensures Transitions(AddJob(s, j, job, long))
  {
    hide HistoryInv, Fits;
  }

  lemma AddStatuses(s: State, j: JobId, job: Job, long: bool)
    requires Domains(s) && Queueing(s) && Statuses(s) && j !in s.jobs && RecordInv(job) && job.status.Queued?
    requires !long ==> !job.resumable
    ensures Statuses(AddJob(s, j, job, long))
  {
    hide HistoryInv, Fits;
  }

  lemma AddSettled(s: State, j: JobId, job: Job, long: bool)
    requires Queueing(s) && Settled(s) && j !in s.jobs && RecordInv(job) && job.status.Queued?
    requires !long ==> !job.resumable
    ensures Settled(AddJob(s, j, job, long))
  {
    hide RecordInv, Fits;
  }

  lemma AddAbandonment(s: State, j: JobId, job: Job, long: bool)
    requires Domains(s) && Queueing(s) && Abandonment(s) && j !in s.jobs && RecordInv(job) && job.status.Queued?
    requires !long ==> !job.resumable
    ensures Abandonment(AddJob(s, j, job, long))
  {
    hide RecordInv, Fits;
  }

  lemma AddTracked(s: State, j: JobId, job: Job, long: bool)
    requires Queueing(s) && Tracked(s) && j !in s.jobs && RecordInv(job) && job.status.Queued?
    requires !long ==> !job.resumable
    ensures Tracked(AddJob(s, j, job, long))
  {
    hide RecordInv, Fits;
  }

  lemma AddServed(s: State, j: JobId, job: Job, long: bool)
    requires Domains(s) && Queueing(s) && Served(s) && j !in s.jobs && RecordInv(job) && job.status.Queued?
    requires !long ==> !job.resumable
    ensures Served(AddJob(s, j, job, long))
  {
    hide AddJob, Settled, Abandonment, Tracked;
    AddSettled(s, j, job, long);
    AddAbandonment(s, j, job, long);
    AddTracked(s, j, job, long);
  }

  lemma AddRequests(s: State, j: JobId, job: Job, long: bool)
    requires Domains(s) && Requests(s) && j !in s.jobs && RecordInv(job) && job.status.Queued?
    requires !long ==> !job.resumable
    ensures Requests(AddJob(s, j, job, long))
  {
    hide HistoryInv, Fits;
  }

  lemma AddDataInv(s: State, j: JobId, job: Job, long: bool)
    requires Remembered(s) && DataInv(s) && j !in s.jobs && RecordInv(job) && job.status.Queued?
    requires !long ==> !job.resumable
    ensures DataInv(AddJob(s, j, job, long))
  {
    hide HistoryInv, Fits;
  }

  lemma AddStartOrder(s: State, j: JobId, job: Job, long: bool)
    requires StartOrder(s) && j !in s.jobs && RecordInv(job) && job.status.Queued? && (!long ==> !job.resumable)
    ensures StartOrder(AddJob(s, j, job, long))
  {
    hide HistoryInv, Fits;
  }

  lemma AddKeepsInv(s: State, j: JobId, job: Job, long: bool)
    requires Inv(s) && j !in s.jobs && RecordInv(job) && job.status.Queued? && (!long ==> !job.resumable)
    ensures Inv(AddJob(s, j, job, long))
  {
    hide Records, Domains, Operations, Remembered, Queueing, Locking, Transitions, Statuses, Served, Requests,
         DataInv, StartOrder;
    hide AddJob;
    AddRecords(s, j, job, long);
    AddDomains(s, j, job, long);
    AddOperations(s, j, job, long);
    AddRemembered(s, j, job, long);
    AddQueueing(s, j, job, long);
    AddLocking(s, j, job, long);
    AddTransitions(s, j, job, long);
    AddStatuses(s, j, job, long);
    AddServed(s, j, job, long);
    AddRequests(s, j, job, long);
    AddDataInv(s, j, job, long);
    AddStartOrder(s, j, job, long);
  }

  lemma ShiftKeepsInv(s: State, j: JobId, x: Shift)
    requires Inv(s) && j in s.jobs && SoundShift(s, j, x)
    ensures Inv(Shifted(s, j, x))
  {
    hide Records, Domains, Operations, Remembered, Queueing, Locking, Transitions, Statuses, Served, Requests,
         DataInv, StartOrder;
    hide Shifted, SoundShift;
    ShiftRecords(s, j, x);
    ShiftDomains(s, j, x);
    ShiftOperations(s, j, x);
    ShiftRemembered(s, j, x);
    ShiftQueueing(s, j, x);
    ShiftLocking(s, j, x);
    ShiftTransitions(s, j, x);
    ShiftStatuses(s, j, x);
    ShiftServed(s, j, x);
    ShiftRequests(s, j, x);
    ShiftDataInv(s, j, x);
    ShiftStartOrder(s, j, x);
  }

  lemma FetchKeepsData(s: State)
    requires Inv(s) && CanFetch(s)
    ensures Records(AfterFetch(s)) && Domains(AfterFetch(s)) && Operations(AfterFetch(s)) && Remembered(AfterFetch(s))
    ensures Queueing(AfterFetch(s)) && Transitions(AfterFetch(s)) && StartOrder(AfterFetch(s))
  {
    hide RecordInv, Locking, Statuses, Served, Requests, DataInv;
  }

  lemma FetchKeepsLocking(s: State)
    requires Locking(s) && CanFetch(s)
    ensures Locking(AfterFetch(s))
  {
    hide LockKey;
  }

  lemma FetchKeepsStatuses(s: State)
    requires Queueing(s) && Statuses(s) && CanFetch(s)
    ensures Statuses(AfterFetch(s))
  {
  }

  lemma FetchKeepsServed(s: State)
    requires Queueing(s) && Served(s) && CanFetch(s)
    ensures Served(AfterFetch(s))
  {
  }

  lemma FetchKeepsRequests(s: State)
    requires Requests(s) && DataInv(s) && CanFetch(s)
    ensures Requests(AfterFetch(s)) && DataInv(AfterFetch(s))
  {
    var r := AfterFetch(s);
    forall j | j in r.jobs ensures RequestFits(r, j) {
      assert RequestFits(s, j);
    }
  }

  lemma FetchKeepsInv(s: State)
    requires Inv(s) && CanFetch(s)
    ensures Inv(AfterFetch(s))
  {
    hide Records, Domains, Operations, Remembered, Queueing, Locking, Transitions, Statuses, Served, Requests,
         DataInv, StartOrder;
    hide AfterFetch;
    FetchKeepsData(s);
    FetchKeepsLocking(s);
    FetchKeepsStatuses(s);
    FetchKeepsServed(s);
    FetchKeepsRequests(s);
  }

  /** Nothing but `Transitions` depends on the transition locks, the events, the signals and the closing flag. */
  lemma SameJobs(s: State, t: map<JobId, Holder>, v: set<JobId>, g: multiset<JobId>, c: bool)
    requires Records(s) && Domains(s) && Operations(s) && Remembered(s) && Queueing(s) && Locking(s)
    ensures var r := s.(transition := t, events := v, signals := g, closing := c);
      Records(r) && Domains(r) && Operations(r) && Remembered(r) && Queueing(r) && Locking(r)
  {
    hide RecordInv, LockKey, Holds;
  }

  lemma SameProgress(s: State, t: map<JobId, Holder>, v: set<JobId>, g: multiset<JobId>, c: bool)
    requires Statuses(s) && Served(s) && Requests(s) && DataInv(s) && StartOrder(s)
    ensures var r := s.(transition := t, events := v, signals := g, closing := c);
      Statuses(r) && Served(r) && Requests(r) && DataInv(r) && StartOrder(r)
  {
    hide RecordInv, LockKey, Holds, Fits;
    var r := s.(transition := t, events := v, signals := g, closing := c);
    forall j | j in r.jobs ensures RequestFits(r, j) {
      assert RequestFits(s, j);
    }
  }

  lemma ReleaseKeepsInv(s: State, e: Call)
    requires Inv(s) && CanCall(s, e) && (e.Release? || e.Signal? || e.BeginClose?)
    ensures Inv(AfterCall(s, e))
  {
    hide Records, Domains, Operations, Remembered, Queueing, Locking, Statuses, Served, Requests, DataInv, StartOrder;
    var r := AfterCall(s, e);
    SameJobs(s, r.transition, r.events, r.signals, r.closing);
    SameProgress(s, r.transition, r.events, r.signals, r.closing);
    assert r == s.(transition := r.transition, events := r.events, signals := r.signals, closing := r.closing);
  }

  /** A queued job that loses its operation keeps everything else. */
  lemma DropKeepsInv(s: State, j: JobId)
    requires Inv(s)
    ensures Inv(s.(operations := s.operations - {j}))
  {
    DropKeepsJobs(s, j);
    DropKeepsProgress(s, j);
  }

  lemma DropKeepsJobs(s: State, j: JobId)
    requires Records(s) && Domains(s) && Operations(s) && Remembered(s) && Queueing(s) && Locking(s) && Transitions(s)
    ensures var r := s.(operations := s.operations - {j});
      Records(r) && Domains(r) && Operations(r) && Remembered(r) && Queueing(r) && Locking(r) && Transitions(r)
  {
    hide RecordInv, LockKey, Holds;
  }

  lemma DropKeepsProgress(s: State, j: JobId)
    requires Statuses(s) && Served(s) && Requests(s) && DataInv(s) && StartOrder(s)
    ensures var r := s.(operations := s.operations - {j});
      Statuses(r) && Served(r) && Requests(r) && DataInv(r) && StartOrder(r)
  {
    hide RecordInv, LockKey, Holds, Fits;
    var r := s.(operations := s.operations - {j});
    forall k | k in r.jobs ensures RequestFits(r, k) {
      assert RequestFits(s, k);
    }
  }

  lemma CallKeepsInv(s: State, e: Call)
    requires Inv(s) && CanCall(s, e)
    ensures Inv(AfterCall(s, e))
  {
    hide Inv, Poke, SoundPoke, AddJob;
    match e
    case Start(j, kind, key, resumable, long, now) =>
      NewJobInv(kind, key, resumable, now);
      AddKeepsInv(s, j, NewJob(kind, key, resumable, now), resumable || long);
    case Pause(j, now) =>
      SoundCall(s, e);
      PokeKeepsInv(s, j, PAUSE_PATCH, now, Set(PauseRequest), Some(ByPause), false);
    case Resume(j, now) =>
      SoundCall(s, e);
      PokeKeepsInv(s, j, RESUME_PATCH, now, Pop, None, true);
    case Stop(j, now) =>
      SoundCall(s, e);
      PokeKeepsInv(s, j, STOP_PATCH, now, Set(StopRequest), Some(ByStop), false);
    case Shutdown(j, now) =>
      SoundCall(s, e);
      PokeKeepsInv(s, j, SHUTDOWN_PATCH, now, Set(ShutdownRequest), None, true);
    case Cancel(j, why, now) =>
      DropKeepsInv(s, j);
      var dropped := s.(operations := s.operations - {j});
      SoundCall(dropped, e);
      PokeKeepsInv(dropped, j, CancelPatch(why), now, Same, None, false);
    case _ => ReleaseKeepsInv(s, e);
  }

  lemma SoundCall(s: State, e: Call)
    requires Inv(s) && CanCall(s, e)
    ensures e.Pause? ==> SoundPoke(s, e.id, PAUSE_PATCH, Set(PauseRequest), Some(ByPause))
    ensures e.Stop? ==> SoundPoke(s, e.id, STOP_PATCH, Set(StopRequest), Some(ByStop))
    ensures e.Shutdown? ==> SoundPoke(s, e.id, SHUTDOWN_PATCH, Set(ShutdownRequest), None)
    ensures e.Resume? ==> SoundPoke(s, e.id, RESUME_PATCH, Pop, None)
    ensures e.Cancel? && e.id !in s.operations ==> SoundPoke(s, e.id, CancelPatch(e.why), Same, None)
  {
    hide Records, Domains, Operations, Remembered, Queueing, Locking, Transitions, Statuses, Served, Requests,
         DataInv, StartOrder;
    hide SoundPoke;
    PauseStopAreSound(s, e);
    ResumeCancelAreSound(s, e);
  }

  /** Every event keeps the invariant. */
  lemma StepKeepsInv(s: State, e: Event)
    requires Inv(s) && Enabled(s, e)
    ensures Inv(Step(s, e))
  {
    hide Records, Domains, Operations, Remembered, Queueing, Locking, Transitions, Statuses, Served, Requests,
         DataInv, StartOrder;
    hide Do, MoveOf, AfterCall, AfterFetch, Shifted, AcquireShift, BriefShift, SoundShift;
    match e
    case Outside(c) => CallKeepsInv(s, c);
    case Fetch => FetchKeepsInv(s);
    case Acquire(now) =>
      AcquireIsSound(s, now);
      ShiftKeepsInv(s, s.worker.id, AcquireShift(s, now));
    case Worker(a) => MoveKeepsInv(s, a);
    case InShort(b) =>
      BriefsAreSound(s, b);
      ShiftKeepsInv(s, b.id, BriefShift(s, b));
  }

  /** The invariant holds at the end of every run, whatever the interleaving. */
  lemma {:induction false} RunKeepsInv(s: State, es: seq<Event>)
    requires Inv(s) && Possible(s, es)
    ensures Inv(Run(s, es))
    decreases |es|
  {
    hide Inv, Step;
    if es != [] {
      StepKeepsInv(s, es[0]);
      RunKeepsInv(Step(s, es[0]), es[1..]);
    }
  }
}
