/**
 The job manager as the program has it: an object whose methods change its fields in place.
 Each method is the code between two points where the program can yield, and is proved to
 do exactly one event of the state machine in JobEngine, on which the theorems stand.
 A refused call is proved to change nothing.
 */
module JobManager {
  import opened Common
  import opened JobRecord
  import opened JobEngine
  import opened JobEngineInv
  import opened JobEngineTheorems
  import opened JobSteps
  import JobStore

  datatype Outcome = Accepted | Missing | Conflict

  /** Kept for the specification only: the databases, and the history of the run. */
  datatype Past = Past(
    db: map<string, Content>,
    before: map<JobId, Content>,
    left: map<JobId, Content>,
    enqueued: seq<JobId>,
    served: nat,
    starts: seq<int>,
    abandoned: set<JobId>
  )

  class Manager {
    const store: JobStore.Store
    var requests: map<JobId, Request>
    var events: set<JobId>
    var operations: set<JobId>
    var queue: seq<JobId>
    var worker: JobEngine.Worker
    var shorts: map<JobId, Short>
    var execution: map<string, JobId>
    var transition: map<JobId, Holder>
    var closing: bool
    var signals: multiset<JobId>               // calls that have yet to set the control event
    ghost var past: Past                       // what no method reads

    /** The state of the engine; its jobs are the merged view of memory and table. */
    ghost function State(): JobEngine.State
      reads this, store
    {
      JobEngine.State.State(store.View(), requests, events, operations, queue, worker, shorts, execution, transition,
                            signals, closing, past.db, past.before, past.left, past.enqueued, past.served, past.starts,
                            past.abandoned)
    }

    ghost predicate Valid()
      reads this, store
    {
      store.Valid() && LockInv(transition, worker)
    }

    /** A new process on whatever job table the last one left: `recover_for_startup`. */
    constructor (store: JobStore.Store, ghost db: map<string, Content>, now: int)
      requires forall id :: id in store.table ==> RecordInv(store.table[id])
      modifies store
      ensures this.store == store && Valid() && store.InSync() && Init(State()) && SoundTable()
      ensures State() == JobStore.Restarted(store.table, queue, db)
    {
      hide JobStore.Recovered, RecordInv, JobStore.FinishedIn;
      ghost var image := store.table;
      var unfinished := store.Recover(now);
      this.store := store;
      requests, events, operations, queue := map[], {}, {}, unfinished;
      worker, shorts, execution, transition, closing, signals := Idle, map[], map[], map[], false, multiset{};
      past := Past(db, map[], map[], unfinished, 0, [], {});
      new;
      JobStore.RecoveryStartsTheEngine(image, store.table, queue, db, now);
    }

    /** `_update`, whether or not the write reaches the table. */
    method UpdateJob(id: JobId, p: Patch, now: int)
      requires store.Valid() && id in State().jobs
      modifies store
      ensures store.Valid() && State() == Patched(old(State()), id, p, now)
      ensures store.Follows(old(store.table))
    {
      hide JobStore.Store.InSync, JobStore.Store.Follows;
      hide Apply;
      var reaches: bool := *;
      store.Update(id, p, now, reaches);
    }

    method JobOf(id: JobId) returns (job: Job)
      requires store.Valid() && id in State().jobs
      ensures job == State().jobs[id]
    {
      hide JobStore.Store.InSync, JobStore.Store.Follows;
      hide Apply;
      var found := store.Get(id);
      return found.value;
    }

    /** A write under the transition lock, which the worker then still holds. */
    method WriteLocked(p: Patch, now: int, next: JobEngine.Worker)
      requires store.Valid() && !worker.Idle? && worker.id in State().jobs
      modifies this, store
      ensures store.Valid()
      ensures var id := old(worker.id);
        State() == Patched(old(State()), id, p, now).(worker := next, transition := old(transition)[id := ByWorker])
      ensures store.Follows(old(store.table))
    {
      hide JobStore.Store.View, JobStore.Store.Valid, JobStore.Store.InSync, JobStore.Store.Follows;
      hide Apply, LockKey, Undone, CanCall, CanAct, Step, Do, DbAt, StatusPatch;
      var id := worker.id;
      transition := transition[id := ByWorker];
      UpdateJob(id, p, now);
      worker := next;
    }

    /** The start of a job that is not resumable: lock, operation and `running` (jobs.py:700-710, 758-768). */
    method StartSimple(id: JobId, now: int)
      requires store.Valid() && id in State().jobs
      modifies this, store
      ensures store.Valid() && worker == old(worker) && transition == old(transition)
      ensures State() == Patched(old(State()), id, SIMPLE_RUN_PATCH, now).(
                           execution := old(execution)[LockKey(old(State()).jobs[id]) := id],
                           operations := old(operations) - {id})
      ensures store.Follows(old(store.table))
    {
      hide JobStore.Store.View, JobStore.Store.Valid, JobStore.Store.InSync, JobStore.Store.Follows;
      hide Apply, LockKey, Undone, CanCall, CanAct, Step, Do, DbAt, StatusPatch;
      var job := JobOf(id);
      execution := execution[LockKey(job) := id];
      operations := operations - {id};
      UpdateJob(id, SIMPLE_RUN_PATCH, now);
    }

    // ----- Calls from outside -----

    /** jobs.py:470: a closing manager refuses new jobs; the check comes before the awaits of a start. */
    method TakesJobs() returns (open: bool)
      ensures open == !State().closing
    {
      return !closing;
    }

    /** A new job is stored and known; it waits nowhere yet. */
    method Record(id: JobId, kind: string, key: Option<string>, resumable: bool, now: int)
      requires Valid() && id !in State().jobs
      modifies store
      ensures Valid()
      ensures State() == old(State()).(jobs := old(State()).jobs[id := NewJob(kind, key, resumable, now)])
      ensures store.Follows(old(store.table))
    {
      hide JobStore.Store.InSync, JobStore.Store.Follows;
      store.Create(id, kind, key, resumable, now);
    }

    /** jobs.py:476-555 for a job with a new identifier that got past the check, even if a close has begun since. */
    method Enqueue(id: JobId, kind: string, key: Option<string>, resumable: bool, long: bool, now: int)
      requires Valid() && id !in State().jobs
      modifies this, store
      ensures Valid()
      ensures State() == Step(old(State()), Outside(Start(id, kind, key, resumable, long, now)))
      ensures store.Follows(old(store.table))
    {
      hide JobStore.Store.View, JobStore.Store.Valid, JobStore.Store.InSync, JobStore.Store.Follows;
      hide Apply, LockKey, Undone, CanCall, CanAct, Step, Do, DbAt, StatusPatch;
      StartIs(State(), id, kind, key, resumable, long, now);
      Record(id, kind, key, resumable, now);
      if !resumable {
        operations := operations + {id};
      }
      Place(id, resumable || long);
    }

    /** jobs.py:550-555: a new job goes to the long queue, or gets a task of its own. */
    method Place(id: JobId, long: bool)
      requires Valid()
      modifies this
      ensures Valid()
      ensures State() == old(State()).(
                           queue := if long then old(queue) + [id] else old(queue),
                           enqueued := if long then old(past.enqueued) + [id] else old(past.enqueued),
                           shorts := if long then old(shorts) else old(shorts)[id := ShortWait])
    {
      if long {
        queue := queue + [id];
        past := past.(enqueued := past.enqueued + [id]);
      } else {
        shorts := shorts[id := ShortWait];
      }
    }

    /** A request is put down and shown under the transition lock, which the caller then still holds. */
    method Order(id: JobId, request: Request, holder: Holder, p: Patch, now: int)
      requires Valid() && id in State().jobs && id !in transition && !holder.ByWorker?
      modifies this, store
      ensures Valid()
      ensures State() == Patched(old(State()), id, p, now).(
                requests := old(requests)[id := request], transition := old(transition)[id := holder])
      ensures store.Follows(old(store.table))
    {
      hide JobStore.Store.View, JobStore.Store.Valid, JobStore.Store.InSync, JobStore.Store.Follows;
      hide Apply, LockKey, Undone, CanCall, CanAct, Step, Do, DbAt, StatusPatch;
      transition := transition[id := holder];
      requests := requests[id := request];
      UpdateJob(id, p, now);
    }

    /** The part of `pause` under the transition lock. */
    method Pause(id: JobId, now: int) returns (r: Outcome)
      requires Valid() && id !in transition
      modifies this, store
      ensures Valid()
      ensures r.Accepted? == CanCall(old(State()), Call.Pause(id, now)) && r.Missing? == (id !in old(State()).jobs)
      ensures State() == if r.Accepted? then Step(old(State()), Outside(Call.Pause(id, now))) else old(State())
      ensures store.Follows(old(store.table))
    {
      hide JobStore.Store.View, JobStore.Store.Valid, JobStore.Store.InSync, JobStore.Store.Follows;
      hide Apply, LockKey, Undone, CanCall, CanAct, Step, Do, DbAt, StatusPatch;
      store.FollowsItself();
      PauseIs(State(), id, now);
      var found := store.Get(id);
      if found.None? {
        return Missing;
      }
      if !found.value.resumable || !found.value.status.Running? {
        return Conflict;
      }
      Order(id, PauseRequest, ByPause, PAUSE_PATCH, now);
      return Accepted;
    }

    /** `resume` up to the signal. */
    method Resume(id: JobId, now: int) returns (r: Outcome)
      requires Valid()
      modifies this, store
      ensures Valid()
      ensures r.Accepted? == CanCall(old(State()), Call.Resume(id, now)) && r.Missing? == (id !in old(State()).jobs)
      ensures State() == if r.Accepted? then Step(old(State()), Outside(Call.Resume(id, now))) else old(State())
      ensures store.Follows(old(store.table))
    {
      hide JobStore.Store.View, JobStore.Store.Valid, JobStore.Store.InSync, JobStore.Store.Follows;
      hide Apply, LockKey, Undone, CanCall, CanAct, Step, Do, DbAt, StatusPatch;
      store.FollowsItself();
      ResumeIs(State(), id, now);
      var found := store.Get(id);
      if found.None? {
        return Missing;
      }
      if !found.value.resumable || !IsPaused(found.value.status) {
        return Conflict;
      }
      requests := requests - {id};
      UpdateJob(id, RESUME_PATCH, now);
      signals := signals + multiset{id};
      return Accepted;
    }

    /** The part of `stop` under the transition lock. */
    method Stop(id: JobId, now: int) returns (r: Outcome)
      requires Valid() && id !in transition
      modifies this, store
      ensures Valid()
      ensures r.Accepted? == CanCall(old(State()), Call.Stop(id, now)) && r.Missing? == (id !in old(State()).jobs)
      ensures State() == if r.Accepted? then Step(old(State()), Outside(Call.Stop(id, now))) else old(State())
      ensures store.Follows(old(store.table))
    {
      hide JobStore.Store.View, JobStore.Store.Valid, JobStore.Store.InSync, JobStore.Store.Follows;
      hide Apply, LockKey, Undone, CanCall, CanAct, Step, Do, DbAt, StatusPatch;
      store.FollowsItself();
      StopIs(State(), id, now);
      var found := store.Get(id);
      if found.None? {
        return Missing;
      }
      if !found.value.resumable
         || !(found.value.status.Running? || found.value.status.Pausing? || IsPaused(found.value.status)) {
        return Conflict;
      }
      Order(id, StopRequest, ByStop, STOP_PATCH, now);
      return Accepted;
    }

    method Cancel(id: JobId, why: string, now: int) returns (r: Outcome)
      requires Valid()
      modifies this, store
      ensures Valid()
      ensures r.Accepted? == CanCall(old(State()), Call.Cancel(id, why, now))
      ensures r.Missing? == (id !in old(State()).jobs)
      ensures State() == if r.Accepted? then Step(old(State()), Outside(Call.Cancel(id, why, now))) else old(State())
      ensures store.Follows(old(store.table))
    {
      hide JobStore.Store.View, JobStore.Store.Valid, JobStore.Store.InSync, JobStore.Store.Follows;
      hide Apply, LockKey, Undone, CanCall, CanAct, Step, Do, DbAt, StatusPatch;
      store.FollowsItself();
      CancelIs(State(), id, why, now);
      var found := store.Get(id);
      if found.None? {
        return Missing;
      }
      if !found.value.status.Queued? {
        return Conflict;
      }
      operations := operations - {id};
      UpdateJob(id, CancelPatch(why), now);
      return Accepted;
    }

    /** The request `close` makes of the job it finds in the worker. */
    method RequestShutdown(id: JobId, now: int) returns (asked: bool)
      requires Valid() && closing
      modifies this, store
      ensures Valid() && asked == CanCall(old(State()), Call.Shutdown(id, now))
      ensures State() == if asked then Step(old(State()), Outside(Call.Shutdown(id, now))) else old(State())
      ensures store.Follows(old(store.table))
    {
      hide JobStore.Store.View, JobStore.Store.Valid, JobStore.Store.InSync, JobStore.Store.Follows;
      hide Apply, LockKey, Undone, CanCall, CanAct, Step, Do, DbAt, StatusPatch;
      store.FollowsItself();
      ShutdownIs(State(), id, now);
      var found := store.Get(id);
      if found.None? || !found.value.resumable || !(found.value.status.Running? || found.value.status.Pausing?) {
        return false;
      }
      requests := requests[id := ShutdownRequest];
      UpdateJob(id, SHUTDOWN_PATCH, now);
      signals := signals + multiset{id};
      return true;
    }

    /** `pause` and `stop` give the transition lock back; `stop` then sets the control event. */
    method ReleaseTransition(id: JobId)
      requires Valid() && CanCall(State(), Release(id))
      modifies this
      ensures Valid() && State() == Step(old(State()), Outside(Release(id)))
    {
      hide JobStore.Store.View, JobStore.Store.Valid, JobStore.Store.InSync, JobStore.Store.Follows;
      hide Apply, LockKey, Undone, CanCall, CanAct, Step, Do, DbAt, StatusPatch;
      ReleaseIs(State(), id);
      if transition[id].ByStop? {
        events := events + {id};
      }
      transition := transition - {id};
    }

    /** The end of `resume`, and of the request of `close`: `_signal_control`. */
    method SignalControl(id: JobId)
      requires Valid() && CanCall(State(), Signal(id))
      modifies this
      ensures Valid() && State() == Step(old(State()), Outside(Signal(id)))
    {
      hide JobStore.Store.View, JobStore.Store.Valid, JobStore.Store.InSync, JobStore.Store.Follows;
      hide Apply, LockKey, Undone, CanCall, CanAct, Step, Do, DbAt, StatusPatch;
      SignalIs(State(), id);
      events := events + {id};
      signals := signals - multiset{id};
    }

    /** The first thing `close` does. */
    method BeginClose()
      requires Valid() && !closing
      modifies this
      ensures Valid() && State() == Step(old(State()), Outside(Call.BeginClose))
    {
      hide JobStore.Store.View, JobStore.Store.Valid, JobStore.Store.InSync, JobStore.Store.Follows;
      closing := true;
    }

    // ----- The long-lane worker -----

    /** jobs.py:746-753. */
    method FetchNext()
      requires Valid() && CanFetch(State())
      modifies this
      ensures Valid() && State() == Step(old(State()), Fetch)
    {
      hide JobStore.Store.View, JobStore.Store.Valid, JobStore.Store.InSync, JobStore.Store.Follows;
      hide Apply, LockKey, CanCall, CanAct, CanBrief, Do, AfterCall, Shifted, AcquireShift, BriefShift, MoveOf;
      var id := queue[0];
      queue := queue[1..];
      past := past.(served := past.served + 1);
      var found := store.Get(id);
      if found.Some? && !IsTerminal(found.value.status) {
        worker := Fetched(id);
      }
    }

    method EnterResumable(now: int)
      requires Valid() && CanAcquire(State()) && State().jobs[worker.id].resumable
      modifies this
      ensures Valid() && State() == Step(old(State()), Acquire(now))
    {
      hide JobStore.Store.View, JobStore.Store.Valid, JobStore.Store.InSync, JobStore.Store.Follows;
      hide Apply, LockKey, Undone, CanCall, CanAct, Step, Do, DbAt, StatusPatch;
      AcquireResumableIs(State(), now);
      var id := worker.id;
      var job := JobOf(id);
      shorts := shorts - {id};
      execution := execution[LockKey(job) := id];
      worker := AtTop(id);
    }

    method EnterSimple(now: int)
      requires Valid() && CanAcquire(State()) && !State().jobs[worker.id].resumable && worker.id in operations
      modifies this, store
      ensures Valid() && State() == Step(old(State()), Acquire(now))
      ensures store.Follows(old(store.table))
    {
      hide JobStore.Store.View, JobStore.Store.Valid, JobStore.Store.InSync, JobStore.Store.Follows;
      hide Apply, LockKey, Undone, CanCall, CanAct, Step, Do, DbAt, StatusPatch;
      AcquireSimpleIs(State(), now);
      var id := worker.id;
      shorts := shorts - {id};
      past := past.(starts := past.starts + [past.served - 1]);
      StartSimple(id, now);
      worker := InSimple(id);
    }

    method EnterLost(now: int)
      requires Valid() && CanAcquire(State()) && !State().jobs[worker.id].resumable && worker.id !in operations
      modifies this, store
      ensures Valid() && State() == Step(old(State()), Acquire(now))
      ensures store.Follows(old(store.table))
    {
      hide JobStore.Store.View, JobStore.Store.Valid, JobStore.Store.InSync, JobStore.Store.Follows;
      hide Apply, LockKey, Undone, CanCall, CanAct, Step, Do, DbAt, StatusPatch;
      AcquireSimpleIs(State(), now);
      var id := worker.id;
      shorts := shorts - {id};
      UpdateJob(id, MISSING_PATCH, now);
      worker := Idle;
    }

    /** jobs.py:754-768: with the execution lock in hand, the job runs, resumes or is found lost. */
    method EnterLane(now: int)
      requires Valid() && CanAcquire(State())
      modifies this, store
      ensures Valid() && State() == Step(old(State()), Acquire(now))
      ensures store.Follows(old(store.table))
    {
      hide JobStore.Store.View, JobStore.Store.Valid, JobStore.Store.InSync, JobStore.Store.Follows;
      hide Apply, LockKey, Undone, CanCall, CanAct, Step, Do, DbAt, StatusPatch;
      store.FollowsItself();
      var job := JobOf(worker.id);
      if job.resumable {
        EnterResumable(now);
      } else if worker.id in operations {
        EnterSimple(now);
      } else {
        EnterLost(now);
      }
    }

    /** jobs.py:836-842: the head of the loop in `_run_resumable`. */
    method LoopTop(now: int)
      requires Valid() && CanAct(State(), Top(now))
      modifies this, store
      ensures Valid() && State() == Step(old(State()), Worker(Top(now)))
      ensures store.Follows(old(store.table))
    {
      hide JobStore.Store.View, JobStore.Store.Valid, JobStore.Store.InSync, JobStore.Store.Follows;
      hide Apply, LockKey, Undone, CanCall, CanAct, Step, Do, DbAt, StatusPatch;
      store.FollowsItself();
      TopIs(State(), now);
      var id := worker.id;
      var job := JobOf(id);
      if IsTerminal(job.status) {
        Leave(id, false);
      } else if IsPaused(job.status) {
        worker := Waiting(id);
      } else {
        BeginAttempt(now, false);
      }
    }

    /** jobs.py:842-845: the control event is set; it is cleared before the next attempt. */
    method WakeUp(now: int)
      requires Valid() && CanAct(State(), Wake(now))
      modifies this, store
      ensures Valid() && State() == Step(old(State()), Worker(Wake(now)))
      ensures store.Follows(old(store.table))
    {
      hide JobStore.Store.View, JobStore.Store.Valid, JobStore.Store.InSync, JobStore.Store.Follows;
      hide Apply, LockKey, Undone, CanCall, CanAct, Step, Do, DbAt, StatusPatch;
      WakeIs(State(), now);
      BeginAttempt(now, true);
    }

    method Clear(id: JobId)
      requires Valid()
      modifies this
      ensures Valid() && State() == old(State()).(events := old(events) - {id})
    {
      hide JobStore.Store.View, JobStore.Store.Valid, JobStore.Store.InSync, JobStore.Store.Follows;
      events := events - {id};
    }

    /** jobs.py:843-859 with a resolver that answers. */
    method BeginAttempt(now: int, clear: bool)
      requires Valid() && (worker.AtTop? || worker.Waiting?) && worker.id in State().jobs
      modifies this, store
      ensures Valid() && State() == Do(old(State()), BeginRun(old(State()), old(worker.id), now).(clear := clear))
      ensures store.Follows(old(store.table))
    {
      hide JobStore.Store.View, JobStore.Store.Valid, JobStore.Store.InSync, JobStore.Store.Follows;
      hide Apply, LockKey, Undone, CanCall, CanAct, Step, Do, DbAt, StatusPatch, Begun;
      BeginIs(State(), now, clear);
      var id := worker.id;
      if clear {
        Clear(id);
      }
      MarkOrRun(now);
    }

    /** A pending stop is never run past (jobs.py:846-852). */
    method MarkOrRun(now: int)
      requires Valid() && (worker.AtTop? || worker.Waiting?) && worker.id in State().jobs
      modifies this, store
      ensures Valid()
      ensures var s := old(State());
        State() == if Requested(s, s.worker.id, StopRequest) then s.(worker := StopMark(s.worker.id)) else Begun(s, now)
      ensures store.Follows(old(store.table))
    {
      hide JobStore.Store.View, JobStore.Store.Valid, JobStore.Store.InSync, JobStore.Store.Follows;
      hide Apply, Begun;
      store.FollowsItself();
      if worker.id in requests && requests[worker.id].StopRequest? {
        worker := StopMark(worker.id);
      } else {
        Attempt(now);
      }
    }

    /** jobs.py:851-859: the pending request is dropped and the run begins. */
    method Attempt(now: int)
      requires store.Valid() && !worker.Idle? && worker.id in State().jobs
      modifies this, store
      ensures store.Valid() && State() == Begun(old(State()), now) && worker.InRun? && transition == old(transition)
      ensures store.Follows(old(store.table))
    {
      hide JobStore.Store.View, JobStore.Store.Valid, JobStore.Store.InSync, JobStore.Store.Follows;
      hide Apply, LockKey, Undone, CanCall, CanAct, Step, Do, StatusPatch;
      var id := worker.id;
      ghost var begun := Begun(State(), now);
      past := past.(starts := begun.starts, before := begun.before, left := begun.left);
      requests := requests - {id};
      UpdateJob(id, RUN_PATCH, now);
      worker := InRun(id);
    }

    method FreeDatabase(id: JobId)
      requires Valid() && id in State().jobs
      modifies this`execution
      ensures Valid() && State() == old(State()).(execution := old(execution) - {LockKey(old(State()).jobs[id])})
    {
      hide JobStore.Store.View, JobStore.Store.Valid, JobStore.Store.InSync, JobStore.Store.Follows;
      hide LockKey;
      var job := JobOf(id);
      execution := execution - {LockKey(job)};
    }

    /** The worker leaves the block under the transition lock, if it is in one. */
    method FreeTransition(id: JobId)
      requires Valid() && !worker.Idle? && worker.id == id
      modifies this`transition
      ensures Valid() && State() == old(State()).(transition := Unlock(old(State())))
      ensures forall k :: k in transition ==> !transition[k].ByWorker?
    {
      hide JobStore.Store.View, JobStore.Store.Valid, JobStore.Store.InSync, JobStore.Store.Follows;
      if id in transition && transition[id].ByWorker? {
        transition := transition - {id};
      }
    }

    /** The worker goes on with the job at the head of its loop. */
    method BackToTop(id: JobId)
      requires Valid() && !worker.Idle? && worker.id == id
      modifies this`transition, this`worker
      ensures Valid() && State() == old(State()).(worker := AtTop(id), transition := Unlock(old(State())))
    {
      hide JobStore.Store.View, JobStore.Store.Valid, JobStore.Store.InSync, JobStore.Store.Follows;
      FreeTransition(id);
      worker := AtTop(id);
    }

    /** The worker gives the execution lock back and is done with the job. */
    method Leave(id: JobId, abandon: bool)
      requires Valid() && Holds(worker, id) && id in State().jobs
      modifies this
      ensures Valid() && store.View() == old(store.View())
      ensures State() == Do(old(State()), Goto(Idle).(abandon := abandon))
    {
      hide JobStore.Store.View, JobStore.Store.Valid, JobStore.Store.InSync, JobStore.Store.Follows;
      hide Apply, LockKey, Undone, CanCall, CanAct, Step, Do, DbAt, StatusPatch;
      LeaveIs(State(), abandon);
      FreeDatabase(id);
      FreeTransition(id);
      worker := Idle;
      past := past.(abandoned := if abandon then past.abandoned + {id} else past.abandoned);
    }

    /** The operation changes its database, which the manager itself never touches. */
    ghost method RecordContent(content: Content)
      requires !worker.Idle? && worker.id in State().jobs
      modifies this`past
      ensures State() == RolledBack(old(State()), content)
    {
      hide LockKey;
      var id := worker.id;
      past := past.(db := past.db[LockKey(State().jobs[id]) := content],
                    left := if id in past.left then past.left[id := content] else past.left);
    }

    /** The operation of the job writes to its database. */
    method OperationWrites(ghost v: Content)
      requires Valid() && worker.InRun? && worker.id in State().jobs
      modifies this
      ensures Valid() && State() == Step(old(State()), Worker(OpWrite(v)))
    {
      hide JobStore.Store.View, JobStore.Store.Valid, JobStore.Store.InSync, JobStore.Store.Follows;
      hide Apply, LockKey, Undone, CanCall, CanAct, Step, Do, DbAt, StatusPatch;
      OperationIs(State(), v, "");
      RecordContent(v);
    }

    /** The operation returns, raises `JobInterrupted` (with a reason), or raises anything else. */
    method OperationEnds(returns_: bool, interrupted: Option<string>)
      requires Valid() && worker.InRun? && worker.id in State().jobs
      modifies this
      ensures Valid()
      ensures State() == Step(old(State()), Worker(if returns_ then OpReturns
                                                   else if interrupted.Some? then OpInterrupts(interrupted.value)
                                                   else OpFails))
    {
      hide JobStore.Store.View, JobStore.Store.Valid, JobStore.Store.InSync, JobStore.Store.Follows;
      hide Apply, LockKey, Undone, CanCall, CanAct, Step, Do, DbAt, StatusPatch;
      OperationIs(State(), "", if interrupted.Some? then interrupted.value else "");
      var id := worker.id;
      if returns_ {
        worker := Returned(id);
      } else if interrupted.Some? {
        worker := InterruptSeen(id, interrupted.value);
      } else {
        worker := FailRollback(id);
      }
    }

    /** `control_point` (task_control.py:74-79): a pending request becomes a signal. */
    method ControlPoint()
      requires Valid() && CanAct(State(), OpControlPoint)
      modifies this
      ensures Valid() && State() == Step(old(State()), Worker(OpControlPoint))
    {
      hide JobStore.Store.View, JobStore.Store.Valid, JobStore.Store.InSync, JobStore.Store.Follows;
      hide Apply, LockKey, Undone, CanCall, CanAct, Step, Do, DbAt, StatusPatch;
      ControlPointIs(State());
      var id := worker.id;
      if id in requests {
        SeeRequest(id);
      }
    }

    /** The signal a pending request raises, once it has reached the worker. */
    method SeeRequest(id: JobId)
      requires Valid() && id in requests && (worker == InRun(id) || worker == Returned(id))
      modifies `worker
      ensures Valid() && State() == old(State()).(worker := Signalled(requests[id], id))
    {
      if requests[id].StopRequest? {
        worker := StopMark(id);
      } else {
        worker := PauseSeen(id, requests[id].ShutdownRequest?);
      }
    }

    /** `progress` (task_control.py:51-57): always writes `running`. */
    method Progress(value: real, message: string, now: int)
      requires Valid() && CanAct(State(), OpProgress(value, message, now))
      modifies store
      ensures Valid() && State() == Step(old(State()), Worker(OpProgress(value, message, now)))
      ensures store.Follows(old(store.table))
    {
      hide JobStore.Store.View, JobStore.Store.Valid, JobStore.Store.InSync, JobStore.Store.Follows;
      hide Apply, LockKey, Undone, CanCall, CanAct, Step, Do, DbAt, StatusPatch;
      ProgressIs(State(), value, message, now);
      var clamped := if value < 0.0 then 0.0 else if value > 1.0 then 1.0 else value;
      UpdateJob(worker.id, ProgressPatch(clamped, message), now);
    }

    /** The write of `checkpoint` (task_control.py:59-71); the control point follows. */
    method SaveCheckpoint(checkpoint: string, p: Option<real>, m: Option<string>, now: int)
      requires Valid() && CanAct(State(), OpCheckpoint(checkpoint, p, m, now))
      modifies store
      ensures Valid() && State() == Step(old(State()), Worker(OpCheckpoint(checkpoint, p, m, now)))
      ensures store.Follows(old(store.table))
    {
      hide JobStore.Store.View, JobStore.Store.Valid, JobStore.Store.InSync, JobStore.Store.Follows;
      hide Apply, LockKey, Undone, CanCall, CanAct, Step, Do, DbAt, StatusPatch;
      CheckpointIs(State(), checkpoint, p, m, now);
      var fields := NOTHING.(checkpoint := Put(Some(checkpoint)));
      if p.Some? {
        var clamped := if p.value < 0.0 then 0.0 else if p.value > 1.0 then 1.0 else p.value;
        fields := fields.(progress := Put(clamped));
      }
      if m.Some? {
        fields := fields.(message := Put(m.value));
      }
      UpdateJob(worker.id, fields, now);
    }

    /** The resolver raises: the worker's own handler marks the job failed (jobs.py:771-778, 1082-1092). */
    method ResolverRaises(now: int)
      requires Valid() && CanAct(State(), ResolveFails(now))
      modifies this, store
      ensures Valid() && State() == Step(old(State()), Worker(ResolveFails(now)))
      ensures store.Follows(old(store.table))
    {
      hide JobStore.Store.View, JobStore.Store.Valid, JobStore.Store.InSync, JobStore.Store.Follows;
      hide Apply, LockKey, Undone, CanCall, CanAct, Step, Do, DbAt, StatusPatch;
      ResolveFailsIs(State(), now);
      var id := worker.id;
      if worker.Waiting? {
        events := events - {id};
      }
      UpdateJob(id, FailedPatch("manager_error", "resolver"), now);
      Leave(id, false);
    }

    /** jobs.py:863-864: the last look at the requests, under the transition lock. */
    method CheckCompletion()
      requires Valid() && CanAct(State(), CompleteCheck)
      modifies this
      ensures Valid() && State() == Step(old(State()), Worker(CompleteCheck))
    {
      hide JobStore.Store.View, JobStore.Store.Valid, JobStore.Store.InSync, JobStore.Store.Follows;
      hide Apply, LockKey, Undone, CanCall, CanAct, Step, Do, DbAt, StatusPatch;
      CheckIs(State());
      var id := worker.id;
      if id !in requests {
        transition := transition[id := ByWorker];
        worker := Checked(id);
      } else {
        SeeRequest(id);
      }
    }

    /** jobs.py:865-874: `completed` is written while the lock is held. */
    method Complete(result: Option<string>, now: int)
      requires Valid() && CanAct(State(), CompleteWrite(result, now))
      modifies this, store
      ensures Valid() && State() == Step(old(State()), Worker(CompleteWrite(result, now)))
      ensures store.Follows(old(store.table))
    {
      hide JobStore.Store.View, JobStore.Store.Valid, JobStore.Store.InSync, JobStore.Store.Follows;
      hide Apply, LockKey, Undone, CanCall, CanAct, Step, Do, DbAt, StatusPatch;
      CompleteIs(State(), result, now);
      var id := worker.id;
      WriteLocked(CompletePatch(result), now, Written(id));
    }

    method LeaveCompleted()
      requires Valid() && CanAct(State(), CompleteRelease)
      modifies this
      ensures Valid() && State() == Step(old(State()), Worker(CompleteRelease))
    {
      hide JobStore.Store.View, JobStore.Store.Valid, JobStore.Store.InSync, JobStore.Store.Follows;
      hide Apply, LockKey, Undone, CanCall, CanAct, Step, Do, DbAt, StatusPatch;
      LeaveCompletedIs(State());
      Leave(worker.id, false);
    }

    /** jobs.py:884-904: a stop that arrived meanwhile wins over the pause. */
    method OnPause(now: int)
      requires Valid() && CanAct(State(), PauseDecide(now))
      modifies this, store
      ensures Valid() && State() == Step(old(State()), Worker(PauseDecide(now)))
      ensures store.Follows(old(store.table))
    {
      hide JobStore.Store.View, JobStore.Store.Valid, JobStore.Store.InSync, JobStore.Store.Follows;
      hide Apply, LockKey, Undone, CanCall, CanAct, Step, Do, DbAt, StatusPatch;
      store.FollowsItself();
      PauseDecideIs(State(), now);
      var id := worker.id;
      var shutdown := worker.shutdown;
      if id in requests && requests[id].StopRequest? {
        worker := StopMark(id);
        return;
      }
      WriteLocked(StatusPatch(Paused, if shutdown then "shutdown" else "manual", ""), now, PauseWritten(id, shutdown));
    }

    method AfterPause()
      requires Valid() && CanAct(State(), PauseDone)
      modifies this
      ensures Valid() && State() == Step(old(State()), Worker(PauseDone))
    {
      hide JobStore.Store.View, JobStore.Store.Valid, JobStore.Store.InSync, JobStore.Store.Follows;
      hide Apply, LockKey, Undone, CanCall, CanAct, Step, Do, DbAt, StatusPatch;
      PauseDoneIs(State());
      var id := worker.id;
      requests := requests - {id};
      if worker.shutdown {
        Leave(id, true);
      } else {
        BackToTop(id);
      }
    }

    /** jobs.py:907-923. */
    method OnInterruption(now: int)
      requires Valid() && CanAct(State(), InterruptDecide(now))
      modifies this, store
      ensures Valid() && State() == Step(old(State()), Worker(InterruptDecide(now)))
      ensures store.Follows(old(store.table))
    {
      hide JobStore.Store.View, JobStore.Store.Valid, JobStore.Store.InSync, JobStore.Store.Follows;
      hide Apply, LockKey, Undone, CanCall, CanAct, Step, Do, DbAt, StatusPatch;
      store.FollowsItself();
      InterruptDecideIs(State(), now);
      var id := worker.id;
      var why := worker.why;
      if id in requests && requests[id].StopRequest? {
        worker := StopMark(id);
        return;
      }
      WriteLocked(StatusPatch(Interrupted, why, ""), now, InterruptWritten(id));
    }

    method AfterInterruption()
      requires Valid() && CanAct(State(), InterruptDone)
      modifies this
      ensures Valid() && State() == Step(old(State()), Worker(InterruptDone))
    {
      hide JobStore.Store.View, JobStore.Store.Valid, JobStore.Store.InSync, JobStore.Store.Follows;
      hide Apply, LockKey, Undone, CanCall, CanAct, Step, Do, DbAt, StatusPatch;
      InterruptDoneIs(State());
      var id := worker.id;
      requests := requests - {id};
      BackToTop(id);
    }

    /** jobs.py:968-974: the first write of `_perform_stop`. */
    method EnterStop(now: int)
      requires Valid() && CanAct(State(), MarkStopping(now))
      modifies this, store
      ensures Valid() && State() == Step(old(State()), Worker(MarkStopping(now)))
      ensures store.Follows(old(store.table))
    {
      hide JobStore.Store.View, JobStore.Store.Valid, JobStore.Store.InSync, JobStore.Store.Follows;
      hide Apply, LockKey, Undone, CanCall, CanAct, Step, Do, DbAt, StatusPatch;
      MarkStoppingIs(State(), now);
      var id := worker.id;
      UpdateJob(id, STOP_PATCH, now);
      worker := StopRollback(id);
    }

    method StopUndoGood(ghost v: Content)
      requires Valid() && CanAct(State(), StopUndo(v))
      modifies this
      ensures Valid() && State() == Step(old(State()), Worker(StopUndo(v)))
    {
      hide JobStore.Store.View, JobStore.Store.Valid, JobStore.Store.InSync, JobStore.Store.Follows;
      hide Apply, LockKey, Undone, CanCall, CanAct, Step, Do, DbAt, StatusPatch;
      StopUndoIs(State(), v);
      RecordContent(Undone(State(), worker.id, v));
      worker := StopUndone(worker.id);
    }

    method StopUndoRaised(ghost v: Content, now: int)
      requires Valid() && CanAct(State(), StopUndoFails(v, now))
      modifies this, store
      ensures Valid() && State() == Step(old(State()), Worker(StopUndoFails(v, now)))
      ensures store.Follows(old(store.table))
    {
      hide JobStore.Store.View, JobStore.Store.Valid, JobStore.Store.InSync, JobStore.Store.Follows;
      hide Apply, LockKey, Undone, CanCall, CanAct, Step, Do, DbAt, StatusPatch;
      StopUndoFailsIs(State(), v, now);
      var id := worker.id;
      RecordContent(v);
      UpdateJob(id, StatusPatch(Interrupted, ROLLBACK_FAILED, ""), now);
      worker := StopStuck(id);
    }

    /** The rollback of `_perform_stop` ends; `v` is what it leaves when nothing is known of it. */
    method StopRolledBack(succeeds: bool, ghost v: Content, now: int)
      requires Valid() && CanAct(State(), if succeeds then StopUndo(v) else StopUndoFails(v, now))
      modifies this, store
      ensures Valid()
      ensures State() == Step(old(State()), Worker(if succeeds then StopUndo(v) else StopUndoFails(v, now)))
      ensures store.Follows(old(store.table))
    {
      hide JobStore.Store.View, JobStore.Store.Valid, JobStore.Store.InSync, JobStore.Store.Follows;
      hide Apply, LockKey, Undone, CanCall, CanAct, Step, Do, DbAt, StatusPatch;
      store.FollowsItself();
      if succeeds {
        StopUndoGood(v);
      } else {
        StopUndoRaised(v, now);
      }
    }

    method LeaveStopped(now: int)
      requires Valid() && CanAct(State(), StopWrite(now))
      modifies this, store
      ensures Valid() && State() == Step(old(State()), Worker(StopWrite(now)))
      ensures store.Follows(old(store.table))
    {
      hide JobStore.Store.View, JobStore.Store.Valid, JobStore.Store.InSync, JobStore.Store.Follows;
      hide Apply, LockKey, Undone, CanCall, CanAct, Step, Do, DbAt, StatusPatch;
      StopWriteIs(State(), now);
      var id := worker.id;
      requests := requests - {id};
      UpdateJob(id, STOPPED_PATCH, now);
      Leave(id, false);
    }

    method LeaveStuck()
      requires Valid() && CanAct(State(), StopAbandon)
      modifies this
      ensures Valid() && State() == Step(old(State()), Worker(StopAbandon))
    {
      hide JobStore.Store.View, JobStore.Store.Valid, JobStore.Store.InSync, JobStore.Store.Follows;
      hide Apply, LockKey, Undone, CanCall, CanAct, Step, Do, DbAt, StatusPatch;
      StopAbandonIs(State());
      var id := worker.id;
      requests := requests - {id};
      Leave(id, true);
    }

    /** jobs.py:988-999: the request is dropped; a failed rollback lets the job go, a good one makes it `stopped`. */
    method LeaveStop(now: int)
      requires Valid() && CanAct(State(), if worker.StopStuck? then StopAbandon else StopWrite(now))
      modifies this, store
      ensures Valid()
      ensures State() == Step(old(State()), Worker(if old(worker).StopStuck? then StopAbandon else StopWrite(now)))
      ensures store.Follows(old(store.table))
    {
      hide JobStore.Store.View, JobStore.Store.Valid, JobStore.Store.InSync, JobStore.Store.Follows;
      hide Apply, LockKey, Undone, CanCall, CanAct, Step, Do, DbAt, StatusPatch;
      store.FollowsItself();
      if worker.StopStuck? {
        LeaveStuck();
      } else {
        LeaveStopped(now);
      }
    }

    method FailureUndone(ghost v: Content)
      requires Valid() && CanAct(State(), FailUndo(v))
      modifies this
      ensures Valid() && State() == Step(old(State()), Worker(FailUndo(v)))
    {
      hide JobStore.Store.View, JobStore.Store.Valid, JobStore.Store.InSync, JobStore.Store.Follows;
      hide Apply, LockKey, Undone, CanCall, CanAct, Step, Do, DbAt, StatusPatch;
      FailUndoIs(State(), v);
      RecordContent(Undone(State(), worker.id, v));
      worker := FailUndone(worker.id);
    }

    method FailureUndoRaised(ghost v: Content, now: int)
      requires Valid() && CanAct(State(), FailUndoFails(v, now))
      modifies this, store
      ensures Valid() && State() == Step(old(State()), Worker(FailUndoFails(v, now)))
      ensures store.Follows(old(store.table))
    {
      hide JobStore.Store.View, JobStore.Store.Valid, JobStore.Store.InSync, JobStore.Store.Follows;
      hide Apply, LockKey, Undone, CanCall, CanAct, Step, Do, DbAt, StatusPatch;
      FailUndoFailsIs(State(), v, now);
      var id := worker.id;
      RecordContent(v);
      UpdateJob(id, NOTHING.(status := Put(Interrupted), reason := Put(ROLLBACK_FAILED)), now);
      worker := AtTop(id);
    }

    /** jobs.py:938-952: the rollback after a failure ends. */
    method FailureRolledBack(succeeds: bool, ghost v: Content, now: int)
      requires Valid() && CanAct(State(), if succeeds then FailUndo(v) else FailUndoFails(v, now))
      modifies this, store
      ensures Valid()
      ensures State() == Step(old(State()), Worker(if succeeds then FailUndo(v) else FailUndoFails(v, now)))
      ensures store.Follows(old(store.table))
    {
      hide JobStore.Store.View, JobStore.Store.Valid, JobStore.Store.InSync, JobStore.Store.Follows;
      hide Apply, LockKey, Undone, CanCall, CanAct, Step, Do, DbAt, StatusPatch;
      store.FollowsItself();
      if succeeds {
        FailureUndone(v);
      } else {
        FailureUndoRaised(v, now);
      }
    }

    /** jobs.py:953-960. */
    method Fail(error: string, now: int)
      requires Valid() && CanAct(State(), FailWrite(error, now))
      modifies this, store
      ensures Valid() && State() == Step(old(State()), Worker(FailWrite(error, now)))
      ensures store.Follows(old(store.table))
    {
      hide JobStore.Store.View, JobStore.Store.Valid, JobStore.Store.InSync, JobStore.Store.Follows;
      hide Apply, LockKey, Undone, CanCall, CanAct, Step, Do, DbAt, StatusPatch;
      FailWriteIs(State(), error, now);
      var id := worker.id;
      UpdateJob(id, FailedPatch(OPERATION_FAILED, error), now);
      Leave(id, false);
    }

    // ----- A job in the long lane that is not resumable -----

    method LongWrites(ghost v: Content)
      requires Valid() && worker.InSimple? && worker.id in State().jobs
      modifies this
      ensures Valid() && State() == Step(old(State()), Worker(LongWrite(v)))
    {
      hide JobStore.Store.View, JobStore.Store.Valid, JobStore.Store.InSync, JobStore.Store.Follows;
      hide Apply, LockKey, Undone, CanCall, CanAct, Step, Do, DbAt, StatusPatch;
      LongIs(State(), v, 0.0, "", 0);
      RecordContent(v);
    }

    /** The progress of `_run_simple`, which is not clamped (jobs.py:783-784). */
    method LongReports(value: real, message: string, now: int)
      requires Valid() && worker.InSimple? && worker.id in State().jobs
      modifies store
      ensures Valid() && State() == Step(old(State()), Worker(LongProgress(value, message, now)))
      ensures store.Follows(old(store.table))
    {
      hide JobStore.Store.View, JobStore.Store.Valid, JobStore.Store.InSync, JobStore.Store.Follows;
      hide Apply, LockKey, Undone, CanCall, CanAct, Step, Do, DbAt, StatusPatch;
      LongIs(State(), "", value, message, now);
      UpdateJob(worker.id, ProgressPatch(value, message), now);
    }

    /** jobs.py:786-832: the operation of the job ends, well or badly. */
    method LeaveLong(how: Patch, now: int)
      requires Valid() && worker.InSimple? && worker.id in State().jobs && SimpleEnding(how)
      modifies this, store
      ensures Valid() && State() == Step(old(State()), Worker(LongEnds(how, now)))
      ensures store.Follows(old(store.table))
    {
      hide JobStore.Store.View, JobStore.Store.Valid, JobStore.Store.InSync, JobStore.Store.Follows;
      hide Apply, LockKey, Undone, CanCall, CanAct, Step, Do, DbAt, StatusPatch, SimpleEnding;
      LongEndsIs(State(), how, now);
      var id := worker.id;
      UpdateJob(id, how, now);
      Leave(id, false);
    }

    // ----- The short lane -----

    method ShortWrites(id: JobId, ghost v: Content)
      requires Valid() && id in shorts && shorts[id].ShortRun? && id in State().jobs
      modifies this`past
      ensures Valid() && State() == Step(old(State()), InShort(ShortWrite(id, v)))
    {
      hide JobStore.Store.View, JobStore.Store.Valid, JobStore.Store.InSync, JobStore.Store.Follows;
      hide Apply, LockKey, Undone, CanCall, CanAct, Step, Do, DbAt, StatusPatch;
      ShortRunsIs(State(), id, v, 0.0, "", 0);
      past := past.(db := past.db[LockKey(State().jobs[id]) := v]);
    }

    method ShortReports(id: JobId, value: real, message: string, now: int)
      requires Valid() && id in shorts && shorts[id].ShortRun? && id in State().jobs
      modifies store
      ensures Valid() && State() == Step(old(State()), InShort(ShortProgress(id, value, message, now)))
      ensures store.Follows(old(store.table))
    {
      hide JobStore.Store.View, JobStore.Store.Valid, JobStore.Store.InSync, JobStore.Store.Follows;
      hide Apply, LockKey, Undone, CanCall, CanAct, Step, Do, DbAt, StatusPatch;
      ShortRunsIs(State(), id, "", value, message, now);
      UpdateJob(id, ProgressPatch(value, message), now);
    }

    /** jobs.py:695-710: with the execution lock free, the job starts, is already over, or is found lost. */
    method EnterShort(id: JobId, now: int)
      requires Valid() && CanBrief(State(), ShortAcquire(id, now))
      modifies this, store
      ensures Valid() && State() == Step(old(State()), InShort(ShortAcquire(id, now)))
      ensures store.Follows(old(store.table))
    {
      hide JobStore.Store.View, JobStore.Store.Valid, JobStore.Store.InSync, JobStore.Store.Follows;
      hide Apply, LockKey, Undone, CanCall, CanAct, Step, Do, DbAt, StatusPatch;
      store.FollowsItself();
      var job := JobOf(id);
      if !IsTerminal(job.status) && id in operations {
        ShortStartIs(State(), id, now);
        shorts := shorts[id := ShortRun];
        StartSimple(id, now);
        return;
      }
      ShortOverIs(State(), id, now);
      shorts := shorts - {id};
      if IsTerminal(job.status) {
        operations := operations - {id};
      } else {
        UpdateJob(id, MISSING_PATCH, now);
      }
    }

    /** jobs.py:786-832: the operation of a short job ends, well or badly. */
    method LeaveShort(id: JobId, how: Patch, now: int)
      requires Valid() && CanBrief(State(), ShortEnds(id, how, now))
      modifies this, store
      ensures Valid() && State() == Step(old(State()), InShort(ShortEnds(id, how, now)))
      ensures store.Follows(old(store.table))
    {
      hide JobStore.Store.View, JobStore.Store.Valid, JobStore.Store.InSync, JobStore.Store.Follows;
      hide Apply, LockKey, Undone, CanCall, CanAct, Step, Do, DbAt, StatusPatch;
      ShortEndsIs(State(), id, how, now);
      var job := JobOf(id);
      UpdateJob(id, how, now);
      execution := execution - {LockKey(job)};
      shorts := shorts - {id};
    }

    // ----- Whole lives -----

    method AnyStart(id: JobId, now: int) returns (ghost es: seq<Event>)
      requires Valid() && Inv(State())
      modifies this, store
      ensures Valid() && Did(old(State()), es, State())
      ensures store.Follows(old(store.table))
    {
      hide JobStore.Store.View, JobStore.Store.Valid, JobStore.Store.InSync, JobStore.Store.Follows;
      hide Inv, CanAct, CanBrief, Step, Possible, Run, LockKey;
      hide SimpleEnding, Apply, Did;
      store.FollowsItself();
      var kind: string, key: Option<string>, resumable: bool, long: bool := *, *, *, *;
      var found := store.Get(id);
      if found.Some? {
        DidNothing(State());
        return [];
      }
      StartIs(State(), id, kind, key, resumable, long, now);
      DidOne(State(), Outside(Start(id, kind, key, resumable, long, now)));
      Enqueue(id, kind, key, resumable, long, now);
      es := [Outside(Start(id, kind, key, resumable, long, now))];
    }

    /** A call that pauses, resumes, stops or cancels a job, or the request of `close`. */
    method AnyOrder(id: JobId, now: int) returns (ghost es: seq<Event>)
      requires Valid() && Inv(State())
      modifies this, store
      ensures Valid() && Did(old(State()), es, State())
      ensures store.Follows(old(store.table))
    {
      hide CanCall;
      hide JobStore.Store.View, JobStore.Store.Valid, JobStore.Store.InSync, JobStore.Store.Follows;
      hide Inv, CanAct, CanBrief, Step, Possible, Run, LockKey;
      hide SimpleEnding, Apply, Did;
      store.FollowsItself();
      var choice: int, why: string := *, *;
      DidNothing(State());
      es := [];
      ghost var s := State();
      var r := Conflict;
      if choice == 0 && id !in transition {
        r := Pause(id, now);
        es := [Outside(Call.Pause(id, now))];
      } else if choice == 1 {
        r := Resume(id, now);
        es := [Outside(Call.Resume(id, now))];
      } else if choice == 2 && id !in transition {
        r := Stop(id, now);
        es := [Outside(Call.Stop(id, now))];
      } else if choice == 3 {
        r := Cancel(id, why, now);
        es := [Outside(Call.Cancel(id, why, now))];
      } else if closing {
        var asked := RequestShutdown(id, now);
        es := [Outside(Call.Shutdown(id, now))];
        r := if asked then Accepted else Conflict;
      }
      if !r.Accepted? {
        es := [];
      } else {
        DidOne(s, es[0]);
      }
    }

    /** The end of a call that holds a transition lock or owes a signal, or the start of a close. */
    method AnyRelease(id: JobId) returns (ghost es: seq<Event>)
      requires Valid() && Inv(State())
      modifies this, store
      ensures Valid() && Did(old(State()), es, State())
      ensures store.Follows(old(store.table))
    {
      hide JobStore.Store.View, JobStore.Store.Valid, JobStore.Store.InSync, JobStore.Store.Follows;
      hide Inv, CanAct, CanBrief, Step, Possible, Run, LockKey;
      hide SimpleEnding, Apply, Did;
      store.FollowsItself();
      var choice: int := *;
      ghost var s := State();
      if choice == 0 && id in transition && !transition[id].ByWorker? {
        DidOne(s, Outside(Release(id)));
        ReleaseTransition(id);
        es := [Outside(Release(id))];
      } else if choice == 1 && id in signals {
        DidOne(s, Outside(Signal(id)));
        SignalControl(id);
        es := [Outside(Signal(id))];
      } else if !closing {
        DidOne(s, Outside(Call.BeginClose));
        BeginClose();
        es := [Outside(Call.BeginClose)];
      } else {
        DidNothing(s);
        es := [];
      }
    }

    /** The worker takes a job, takes its lock, or stands at the head of the loop. */
    method AnyBeginning(now: int) returns (ghost es: seq<Event>)
      requires Valid() && Inv(State())
      modifies this, store
      ensures Valid() && Did(old(State()), es, State())
      ensures store.Follows(old(store.table))
    {
      hide JobStore.Store.View, JobStore.Store.Valid, JobStore.Store.InSync, JobStore.Store.Follows;
      hide Inv, CanAct, CanBrief, Step, Possible, Run, LockKey;
      hide SimpleEnding, Apply, Did;
      store.FollowsItself();
      ghost var s := State();
      AtItsJob(s);
      if worker.Idle? && |queue| > 0 {
        DidOne(s, Fetch);
        FetchNext();
        return [Fetch];
      }
      if worker.Fetched? {
        var job := JobOf(worker.id);
        if LockKey(job) !in execution {
          DidOne(s, Acquire(now));
          EnterLane(now);
          return [Acquire(now)];
        }
      }
      es := AnyAttempt(now);
    }

    method AnyAttempt(now: int) returns (ghost es: seq<Event>)
      requires Valid() && Inv(State())
      modifies this, store
      ensures Valid() && Did(old(State()), es, State())
      ensures store.Follows(old(store.table))
    {
      hide IsPaused, IsTerminal;
      hide JobStore.Store.View, JobStore.Store.Valid, JobStore.Store.InSync, JobStore.Store.Follows;
      hide Inv, CanAct, CanBrief, Step, Possible, Run, LockKey;
      hide SimpleEnding, Apply, Did;
      store.FollowsItself();
      ghost var s := State();
      AtItsJob(s);
      var fails: bool := *;
      if worker.AtTop? || (worker.Waiting? && worker.id in events) {
        var job := JobOf(worker.id);
        StartCan(s, now);
        if fails && (worker.Waiting? || (!IsTerminal(job.status) && !IsPaused(job.status))) {
          DidOne(s, Worker(ResolveFails(now)));
          ResolverRaises(now);
          return [Worker(ResolveFails(now))];
        } else if worker.AtTop? {
          DidOne(s, Worker(Top(now)));
          LoopTop(now);
          return [Worker(Top(now))];
        }
        DidOne(s, Worker(Wake(now)));
        WakeUp(now);
        return [Worker(Wake(now))];
      }
      DidNothing(s);
      es := [];
    }

    /** The operation of a resumable job reports, saves a checkpoint or looks for requests. */
    method AnyReport(now: int) returns (ghost es: seq<Event>)
      requires Valid() && Inv(State()) && worker.InRun?
      modifies this, store
      ensures Valid() && Did(old(State()), es, State())
      ensures store.Follows(old(store.table))
    {
      hide JobStore.Store.View, JobStore.Store.Valid, JobStore.Store.InSync, JobStore.Store.Follows;
      hide Inv, CanAct, CanBrief, Step, Possible, Run, LockKey;
      hide SimpleEnding, Apply, Did;
      store.FollowsItself();
      var choice: int, value: real, message: string, checkpoint: string := *, *, *, *;
      ghost var s := State();
      AtItsJob(s);
      var p: Option<real>, m: Option<string> := *, *;
      OperationCan(s, value, message, checkpoint, p, m, now);
      if choice == 0 {
        DidOne(s, Worker(OpProgress(value, message, now)));
        Progress(value, message, now);
        es := [Worker(OpProgress(value, message, now))];
      } else if choice == 1 {
        DidOne(s, Worker(OpCheckpoint(checkpoint, p, m, now)));
        SaveCheckpoint(checkpoint, p, m, now);
        es := [Worker(OpCheckpoint(checkpoint, p, m, now))];
      } else {
        DidOne(s, Worker(OpControlPoint));
        ControlPoint();
        es := [Worker(OpControlPoint)];
      }
    }

    /** The operation of a resumable job writes to its database, or ends. */
    method AnyWork() returns (ghost es: seq<Event>)
      requires Valid() && Inv(State()) && worker.InRun?
      modifies this, store
      ensures Valid() && Did(old(State()), es, State())
      ensures store.Follows(old(store.table))
    {
      hide JobStore.Store.View, JobStore.Store.Valid, JobStore.Store.InSync, JobStore.Store.Follows;
      hide Inv, CanAct, CanBrief, Step, Possible, Run, LockKey;
      hide SimpleEnding, Apply, Did;
      store.FollowsItself();
      var writes: bool, returns_: bool, interrupted: Option<string> := *, *, *;
      ghost var s, v: Content := State(), *;
      AtItsJob(s);
      OperationIs(s, v, if interrupted.Some? then interrupted.value else "");
      if writes {
        DidOne(s, Worker(OpWrite(v)));
        OperationWrites(v);
        es := [Worker(OpWrite(v))];
      } else {
        ghost var a := if returns_ then OpReturns else if interrupted.Some? then OpInterrupts(interrupted.value)
          else OpFails;
        DidOne(s, Worker(a));
        OperationEnds(returns_, interrupted);
        es := [Worker(a)];
      }
    }

    /** What follows an operation that returned. */
    method AnyCompletion(now: int) returns (ghost es: seq<Event>)
      requires Valid() && Inv(State())
      modifies this, store
      ensures Valid() && Did(old(State()), es, State())
      ensures store.Follows(old(store.table))
    {
      hide JobStore.Store.View, JobStore.Store.Valid, JobStore.Store.InSync, JobStore.Store.Follows;
      hide Inv, CanAct, CanBrief, Step, Possible, Run, LockKey;
      hide SimpleEnding, Apply, Did;
      store.FollowsItself();
      ghost var s := State();
      AtItsJob(s);
      var result: Option<string> := *;
      if worker.Returned? && worker.id !in transition {
        EndingCan(s, result, now);
        DidOne(s, Worker(CompleteCheck));
        CheckCompletion();
        es := [Worker(CompleteCheck)];
      } else if worker.Checked? {
        EndingCan(s, result, now);
        DidOne(s, Worker(CompleteWrite(result, now)));
        Complete(result, now);
        es := [Worker(CompleteWrite(result, now))];
      } else if worker.Written? {
        EndingCan(s, result, now);
        DidOne(s, Worker(CompleteRelease));
        LeaveCompleted();
        es := [Worker(CompleteRelease)];
      } else {
        DidNothing(s);
        es := [];
      }
    }

    /** What follows a pause or an interruption. */
    method AnyRest(now: int) returns (ghost es: seq<Event>)
      requires Valid() && Inv(State())
      modifies this, store
      ensures Valid() && Did(old(State()), es, State())
      ensures store.Follows(old(store.table))
    {
      hide JobStore.Store.View, JobStore.Store.Valid, JobStore.Store.InSync, JobStore.Store.Follows;
      hide Inv, CanAct, CanBrief, Step, Possible, Run, LockKey;
      hide SimpleEnding, Apply, Did;
      store.FollowsItself();
      ghost var s := State();
      AtItsJob(s);
      if worker.PauseSeen? && worker.id !in transition {
        EndingCan(s, None, now);
        DidOne(s, Worker(PauseDecide(now)));
        OnPause(now);
        es := [Worker(PauseDecide(now))];
      } else if worker.PauseWritten? {
        EndingCan(s, None, now);
        DidOne(s, Worker(PauseDone));
        AfterPause();
        es := [Worker(PauseDone)];
      } else if worker.InterruptSeen? && worker.id !in transition {
        EndingCan(s, None, now);
        DidOne(s, Worker(InterruptDecide(now)));
        OnInterruption(now);
        es := [Worker(InterruptDecide(now))];
      } else if worker.InterruptWritten? {
        EndingCan(s, None, now);
        DidOne(s, Worker(InterruptDone));
        AfterInterruption();
        es := [Worker(InterruptDone)];
      } else {
        DidNothing(s);
        es := [];
      }
    }

    /** A step of `_perform_stop`. */
    method AnyStopping(now: int) returns (ghost es: seq<Event>)
      requires Valid() && Inv(State())
      modifies this, store
      ensures Valid() && Did(old(State()), es, State())
      ensures store.Follows(old(store.table))
    {
      hide JobStore.Store.View, JobStore.Store.Valid, JobStore.Store.InSync, JobStore.Store.Follows;
      hide Inv, CanAct, CanBrief, Step, Possible, Run, LockKey;
      hide SimpleEnding, Apply, Did;
      store.FollowsItself();
      ghost var s, v: Content := State(), *;
      AtItsJob(s);
      var succeeds: bool := *;
      if worker.StopMark? {
        StopCan(s, v, now);
        DidOne(s, Worker(MarkStopping(now)));
        EnterStop(now);
        es := [Worker(MarkStopping(now))];
      } else if worker.StopRollback? {
        StopCan(s, v, now);
        ghost var a := if succeeds then StopUndo(v) else StopUndoFails(v, now);
        DidOne(s, Worker(a));
        StopRolledBack(succeeds, v, now);
        es := [Worker(a)];
      } else if worker.StopUndone? || worker.StopStuck? {
        StopCan(s, v, now);
        ghost var a := if worker.StopStuck? then StopAbandon else StopWrite(now);
        DidOne(s, Worker(a));
        LeaveStop(now);
        es := [Worker(a)];
      } else {
        DidNothing(s);
        es := [];
      }
    }

    /** What follows an operation that failed. */
    method AnyFailure(now: int) returns (ghost es: seq<Event>)
      requires Valid() && Inv(State())
      modifies this, store
      ensures Valid() && Did(old(State()), es, State())
      ensures store.Follows(old(store.table))
    {
      hide JobStore.Store.View, JobStore.Store.Valid, JobStore.Store.InSync, JobStore.Store.Follows;
      hide Inv, CanAct, CanBrief, Step, Possible, Run, LockKey;
      hide SimpleEnding, Apply, Did;
      store.FollowsItself();
      ghost var s, v: Content := State(), *;
      AtItsJob(s);
      var succeeds: bool, error: string := *, *;
      if worker.FailRollback? {
        FailCan(s, v, error, now);
        ghost var a := if succeeds then FailUndo(v) else FailUndoFails(v, now);
        DidOne(s, Worker(a));
        FailureRolledBack(succeeds, v, now);
        es := [Worker(a)];
      } else if worker.FailUndone? {
        FailCan(s, v, error, now);
        DidOne(s, Worker(FailWrite(error, now)));
        Fail(error, now);
        es := [Worker(FailWrite(error, now))];
      } else {
        DidNothing(s);
        es := [];
      }
    }

    /** A job in the long lane that is not resumable. */
    method AnyLong(now: int) returns (ghost es: seq<Event>)
      requires Valid() && Inv(State()) && worker.InSimple?
      modifies this, store
      ensures Valid() && Did(old(State()), es, State())
      ensures store.Follows(old(store.table))
    {
      hide JobStore.Store.View, JobStore.Store.Valid, JobStore.Store.InSync, JobStore.Store.Follows;
      hide Inv, CanAct, CanBrief, Step, Possible, Run, LockKey;
      hide SimpleEnding, Apply, Did;
      store.FollowsItself();
      ghost var s, v: Content := State(), *;
      AtItsJob(s);
      var choice: int, value: real, message: string, how: Patch := *, *, *, *;
      LongIs(s, v, value, message, now);
      if choice == 0 {
        DidOne(s, Worker(LongWrite(v)));
        LongWrites(v);
        es := [Worker(LongWrite(v))];
      } else if choice == 1 {
        DidOne(s, Worker(LongProgress(value, message, now)));
        LongReports(value, message, now);
        es := [Worker(LongProgress(value, message, now))];
      } else if SimpleEnding(how) {
        LongEndsIs(s, how, now);
        DidOne(s, Worker(LongEnds(how, now)));
        LeaveLong(how, now);
        es := [Worker(LongEnds(how, now))];
      } else {
        DidNothing(s);
        es := [];
      }
    }

    /** A job in the short lane. */
    method AnyShort(id: JobId, now: int) returns (ghost es: seq<Event>)
      requires Valid() && Inv(State()) && id in shorts
      modifies this, store
      ensures Valid() && Did(old(State()), es, State())
      ensures store.Follows(old(store.table))
    {
      hide JobStore.Store.View, JobStore.Store.Valid, JobStore.Store.InSync, JobStore.Store.Follows;
      hide Inv, CanAct, Step, Possible, Run, LockKey;
      hide SimpleEnding, Apply, Did;
      store.FollowsItself();
      ghost var s, v: Content := State(), *;
      ShortsAreJobs(s);
      var choice: int, value: real, message: string, how: Patch := *, *, *, *;
      var job := JobOf(id);
      if choice == 0 && shorts[id].ShortWait? && LockKey(job) !in execution {
        DidOne(s, InShort(ShortAcquire(id, now)));
        EnterShort(id, now);
        return [InShort(ShortAcquire(id, now))];
      } else if shorts[id].ShortRun? {
        ShortRunsIs(s, id, v, value, message, now);
        if choice == 1 {
          DidOne(s, InShort(ShortWrite(id, v)));
          ShortWrites(id, v);
          return [InShort(ShortWrite(id, v))];
        } else if choice == 2 {
          DidOne(s, InShort(ShortProgress(id, value, message, now)));
          ShortReports(id, value, message, now);
          return [InShort(ShortProgress(id, value, message, now))];
        } else if SimpleEnding(how) {
          DidOne(s, InShort(ShortEnds(id, how, now)));
          LeaveShort(id, how, now);
          return [InShort(ShortEnds(id, how, now))];
        }
      }
      DidNothing(s);
      es := [];
    }

    /** Any step of any task. */
    method AnyStep() returns (ghost es: seq<Event>)
      requires Valid() && Inv(State())
      modifies this, store
      ensures Valid() && Did(old(State()), es, State())
      ensures store.Follows(old(store.table))
    {
      hide JobStore.Store.View, JobStore.Store.Valid, JobStore.Store.InSync, JobStore.Store.Follows;
      hide Inv, CanAct, CanBrief, Step, Possible, Run, LockKey;
      hide SimpleEnding, Apply, Did;
      var choice: int, id: JobId, now: int := *, *, *;
      if choice == 0 {
        es := AnyStart(id, now);
      } else if choice == 1 {
        es := AnyOrder(id, now);
      } else if choice == 2 {
        es := AnyRelease(id);
      } else if choice == 3 && id in shorts {
        es := AnyShort(id, now);
      } else if choice == 4 && worker.InSimple? {
        es := AnyLong(now);
      } else if choice == 5 && worker.InRun? {
        es := AnyReport(now);
      } else if choice == 6 && worker.InRun? {
        es := AnyWork();
      } else if choice == 7 {
        es := AnyCompletion(now);
      } else if choice == 8 {
        es := AnyRest(now);
      } else if choice == 9 {
        es := AnyStopping(now);
      } else if choice == 10 {
        es := AnyFailure(now);
      } else {
        es := AnyBeginning(now);
      }
    }

    /** The rows of the job table satisfy the record invariant: what recovery asks of them. */
    ghost predicate SoundTable()
      reads store
    {
      forall id :: id in store.table ==> RecordInv(store.table[id])
    }

    /**
     Whatever the tasks do with the manager, in whatever order, is a run of the engine; and whatever
     writes succeed or fail meanwhile, every row of the table stays sound.
     */
    method AnyRun(steps: nat) returns (ghost es: seq<Event>)
      requires Valid() && Inv(State()) && SoundTable()
      modifies this, store
      ensures Valid() && Did(old(State()), es, State()) && SoundTable()
    {
      hide JobStore.Store.View, JobStore.Store.Valid, JobStore.Store.InSync, JobStore.Store.Follows;
      hide Inv, CanAct, CanBrief, Step, Possible, Run, LockKey, SimpleEnding, Apply, Did, SoundTable;
      es := [];
      DidNothing(State());
      for k := 0 to steps
        invariant Valid() && Inv(State()) && Did(old(State()), es, State()) && SoundTable()
      {
        ghost var s, rows := State(), store.table;
        ghost var more := AnyStepSoundly();
        DidMore(old(State()), es, s, more, State());
        es := es + more;
      }
    }

    method AnyStepSoundly() returns (ghost es: seq<Event>)
      requires Valid() && Inv(State()) && SoundTable()
      modifies this, store
      ensures Valid() && Did(old(State()), es, State()) && SoundTable()
    {
      hide JobStore.Store.Valid, JobStore.Store.InSync;
      hide Inv, CanAct, CanBrief, Step, Possible, Run, LockKey, SimpleEnding, Apply, Did, RecordInv;
      ghost var before := State();
      es := AnyStep();
      DidSoundly(before, es, State());
    }

    /**
     The life of a process: from recovery on whatever table the last one left, through any steps of
     any tasks. No two jobs ever execute under one key, and every job that began its first run in
     this life and was later stopped, or failed by its operation, left its database as it found it.
     The table it leaves, wherever it is cut off, is one from which the next life can begin.
     */
    static method AnyLife(store: JobStore.Store, ghost db: map<string, Content>, now: int, steps: nat)
      returns (m: Manager, ghost start: JobEngine.State, ghost es: seq<Event>)
      requires forall id :: id in store.table ==> RecordInv(store.table[id])
      modifies store
      ensures fresh(m) && m.store == store && m.Valid() && Reachable(start, es, m.State()) && start.db == db
      ensures forall id :: id in store.table ==> RecordInv(store.table[id])
      ensures NeverTwoPerKey(m.State()) && EveryRollbackRestores(start, es)
    {
      hide JobStore.Store.View, JobStore.Store.Valid, JobStore.Store.InSync, JobStore.Store.Follows;
      hide Inv, CanAct, CanBrief, Step, Possible, Run, LockKey, SimpleEnding;
      hide Apply, Did, Init, RecordInv, Executes, NeverTwoPerKey, EveryRollbackRestores;
      m := new Manager(store, db, now);
      start := m.State();
      InitInv(start);
      es := m.AnyRun(steps);
      DidReach(start, es, m.State());
      LifeHolds(start, es, m.State());
    }

    /**
     Any number of lives, one after the other on the same job table and databases, each cut off by a
     crash wherever it is, with whatever writes lost. The theorems hold of each of them.
     */
    static method AnyLives(store: JobStore.Store, ghost db: map<string, Content>, lives: nat)
      returns (ghost starts: seq<JobEngine.State>, ghost runs: seq<seq<Event>>)
      requires forall id :: id in store.table ==> RecordInv(store.table[id])
      modifies store
      ensures forall id :: id in store.table ==> RecordInv(store.table[id])
      ensures |starts| == |runs| == lives
      ensures forall k :: 0 <= k < lives ==> LifeOf(starts[k], runs[k])
      ensures lives > 0 ==> starts[0].db == db
      ensures forall k :: 0 < k < lives && LifeOf(starts[k - 1], runs[k - 1]) ==>
                starts[k].db == Run(starts[k - 1], runs[k - 1]).db
    {
      hide Init, Possible, Run, RecordInv, NeverTwoPerKey, EveryRollbackRestores, LifeOf;
      starts, runs := [], [];
      ghost var left := db;
      for k := 0 to lives
        invariant forall id :: id in store.table ==> RecordInv(store.table[id])
        invariant |starts| == |runs| == k
        invariant forall i :: 0 <= i < k ==> LifeOf(starts[i], runs[i])
        invariant k > 0 ==> starts[0].db == db
        invariant k == 0 ==> left == db
        invariant k > 0 && LifeOf(starts[k - 1], runs[k - 1]) ==> left == Run(starts[k - 1], runs[k - 1]).db
        invariant forall i :: 0 < i < k && LifeOf(starts[i - 1], runs[i - 1]) ==>
                    starts[i].db == Run(starts[i - 1], runs[i - 1]).db
      {
        var now: int, steps: nat := *, *;
        var m;
        ghost var start, es;
        m, start, es := AnyLife(store, left, now, steps);
        ALife(start, es, m.State());
        left := m.State().db;
        starts, runs := starts + [start], runs + [es];
      }
    }
  }

  /** No two jobs execute under the same key. */
  ghost predicate NeverTwoPerKey(s: JobEngine.State) {
    forall i, j :: i in s.jobs && j in s.jobs && Executes(s, i) && Executes(s, j)
                   && LockKey(s.jobs[i]) == LockKey(s.jobs[j]) ==>
      i == j
  }

  /** Every job of the run that is ended by a rollback leaves its database as it was before its first run. */
  ghost predicate EveryRollbackRestores(s: JobEngine.State, es: seq<Event>)
    requires Possible(s, es)
  {
    forall k: nat, l: nat, j :: k < l < |es| && RanAndRolledBack(s, es, k, l, j) ==>
      var found, end := JobEngineTheorems.After(s, es, k), JobEngineTheorems.After(s, es, l + 1);
      DbAt(end, LockKey(end.jobs[j])) == DbAt(found, LockKey(found.jobs[j]))
  }

  /** A run from recovery on, and what holds of it. */
  ghost predicate LifeOf(s: JobEngine.State, es: seq<Event>)
    ensures LifeOf(s, es) ==> Possible(s, es)
  {
    Init(s) && Possible(s, es) && NeverTwoPerKey(Run(s, es)) && EveryRollbackRestores(s, es)
  }

  lemma ALife(s: JobEngine.State, es: seq<Event>, r: JobEngine.State)
    requires Reachable(s, es, r) && NeverTwoPerKey(r) && EveryRollbackRestores(s, es)
    ensures LifeOf(s, es) && r == Run(s, es)
  {
    hide Init, Possible, Run, NeverTwoPerKey, EveryRollbackRestores;
  }

  lemma LifeHolds(s: JobEngine.State, es: seq<Event>, r: JobEngine.State)
    requires Reachable(s, es, r)
    ensures NeverTwoPerKey(r) && EveryRollbackRestores(s, es)
  {
    hide Init, Possible, Run, LockKey, Executes, DbAt, JobEngineTheorems.After;
    forall i, j | i in r.jobs && j in r.jobs && Executes(r, i) && Executes(r, j)
                  && LockKey(r.jobs[i]) == LockKey(r.jobs[j])
      ensures i == j
    {
      OneJobPerKey(s, es, r, i, j);
    }
    forall k: nat, l: nat, j | k < l < |es| && RanAndRolledBack(s, es, k, l, j)
      ensures var found, end := JobEngineTheorems.After(s, es, k), JobEngineTheorems.After(s, es, l + 1);
        DbAt(end, LockKey(end.jobs[j])) == DbAt(found, LockKey(found.jobs[j]))
    {
      RollbackWithinARun(s, es, k, l, j);
    }
  }

  lemma DidSoundly(s: JobEngine.State, es: seq<Event>, r: JobEngine.State)
    requires Did(s, es, r)
    ensures forall id :: id in r.jobs ==> RecordInv(r.jobs[id])
  {
    hide RecordInv, Possible, Run;
  }

  /** The events `es` lead from `s` to `r`. */
  ghost predicate Did(s: JobEngine.State, es: seq<Event>, r: JobEngine.State) {
    Possible(s, es) && r == Run(s, es) && Inv(r)
  }

  lemma DidNothing(s: JobEngine.State)
    requires Inv(s)
    ensures Did(s, [], s)
  {
  }

  lemma DidOne(s: JobEngine.State, e: Event)
    requires Inv(s) && Enabled(s, e)
    ensures Did(s, [e], Step(s, e))
  {
    hide Inv, Step, Enabled, Possible, Run;
    OneEvent(s, e);
    StepKeepsInv(s, e);
  }

  lemma DidReach(s: JobEngine.State, es: seq<Event>, r: JobEngine.State)
    requires Init(s) && Did(s, es, r)
    ensures Reachable(s, es, r)
  {
  }

  lemma DidMore(s: JobEngine.State, es: seq<Event>, r: JobEngine.State, more: seq<Event>, t: JobEngine.State)
    requires Did(s, es, r) && Did(r, more, t)
    ensures Did(s, es + more, t) && Inv(t)
  {
    hide Possible, Run, Inv;
    RunThen(s, es, more);
  }

  lemma AtItsJob(s: JobEngine.State)
    requires Inv(s)
    ensures !s.worker.Idle? ==> s.worker.id in s.jobs
  {
  }

  lemma ShortsAreJobs(s: JobEngine.State)
    requires Inv(s)
    ensures forall j :: j in s.shorts ==> j in s.jobs
  {
  }
}
