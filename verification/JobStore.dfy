/**
 The job table with the snapshots kept in memory in front of it: `_update` writes behind,
 `get` and the listing merge both, and `recover_for_startup` rebuilds from the table alone.
 A table is a map, a committed transaction one assignment; times are seconds.
 */
module JobStore {
  import opened Common
  import opened JobRecord
  import Engine = JobEngine

  type JobId = string

  const PERSIST_INTERVAL := 1
  const HISTORY_SECONDS := 30 * 24 * 60 * 60
  const FINISHED_LIMIT: nat := 1000

  /** `stored` differs from the job in memory at most in the fields that may be written late. */
  ghost predicate Lags(stored: Job, job: Job) {
    job == stored.(progress := job.progress, message := job.message, result := job.result, error := job.error,
                   updatedAt := job.updatedAt)
  }

  /**
   What a table row may be next to the job in memory: late in the lagging fields, or equal once the
   job is finished.
   */
  ghost predicate InStep(stored: Job, job: Job) {
    Lags(stored, job) && (IsTerminal(job.status) ==> stored == job)
  }

  lemma SameInStep(job: Job)
    ensures InStep(job, job)
  {
  }

  datatype Scope = Active | Finished | All

  predicate InScope(status: Status, scope: Scope) {
    match scope
    case Active => !IsTerminal(status)
    case Finished => IsTerminal(status)
    case All => true
  }

  lemma InScopeMeans(status: Status, scope: Scope)
    ensures InScope(status, scope) <==>
            scope.All? || (scope.Finished? <==> status in {Completed, Failed, Stopped, Cancelled})
  {
  }

  /** An update that changes what must never be late. */
  predicate Urgent(job: Job, before: Status, u: Patch) {
    IsTerminal(job.status) || job.status != before || u.checkpoint.Put? || u.control.Put? || u.reason.Put?
  }

  /** jobs.py:1238-1246: whether an update with effective fields `u` is written at once. */
  predicate MustPersist(job: Job, before: Status, u: Patch, now: int, last: int) {
    Urgent(job, before, u) || now - last >= PERSIST_INTERVAL
  }

  method AppendStatusHistory(history: seq<Entry>, e: Entry) returns (r: seq<Entry>)
    ensures r == AppendHistory(history, e)
  {
    if |history| > 0 && history[|history| - 1].status == e.status {
      return history;
    }
    r := history + [e];
    if |r| > HISTORY_LIMIT {
      r := r[|r| - HISTORY_LIMIT..];
    }
  }

  /** The field-by-field part of `_update`: jobs.py:1196-1233. */
  method ApplyFields(old_: Job, p: Patch, now: int) returns (job: Job)
    requires Effective(old_, p) != NOTHING
    ensures job == Apply(old_, p, now)
  {
    job := old_;
    var u := Effective(job, p);
    var before := job.status;
    var next := Value(u.status, before);
    if EntersExecution(before, next) {
      if job.startedAt.None? {
        job := job.(startedAt := Some(now));
      }
      job := job.(attempts := job.attempts + 1);
    }
    if IsTerminal(next) && !IsTerminal(before) {
      job := job.(finishedAt := Some(now));
    }
    job := job.(status := next, progress := Value(u.progress, job.progress), message := Value(u.message, job.message),
                result := Value(u.result, job.result), error := Value(u.error, job.error),
                checkpoint := Value(u.checkpoint, job.checkpoint), reason := Value(u.reason, job.reason),
                control := Value(u.control, job.control));
    job := job.(updatedAt := now);
    if next != before {
      var history := AppendStatusHistory(job.history, Entry(next, now, job.message, job.reason));
      job := job.(history := history);
    }
  }

  lemma NothingChanges(job: Job, p: Patch, now: int)
    requires Effective(job, p) == NOTHING
    ensures Apply(job, p, now) == job
  {
  }

  /** What has changed in the record is among the effective fields. */
  lemma ChangesAreEffective(job: Job, p: Patch, now: int)
    ensures var r, u := Apply(job, p, now), Effective(job, p);
      && (r.checkpoint != job.checkpoint ==> u.checkpoint.Put?) && (r.control != job.control ==> u.control.Put?)
      && (r.reason != job.reason ==> u.reason.Put?)
  {
  }

  /** An update that is not written at once touches only fields that may lag. */
  lemma UrgentOrInStep(stored: Job, job: Job, p: Patch, now: int)
    requires InStep(stored, job)
    ensures var r := Apply(job, p, now); Urgent(r, job.status, Effective(job, p)) || InStep(stored, r)
  {
  }

  class Store {
    var snapshots: map<JobId, Job>
    var table: map<JobId, Job>
    var lastPersisted: map<JobId, int>

    /** Every job with every update applied: memory in front of the table. */
    ghost function View(): map<JobId, Job>
      reads this
    {
      table + snapshots
    }

    ghost predicate Valid()
      reads this
    {
      snapshots.Keys <= table.Keys
    }

    /** No write has been lost: memory is ahead only in the fields that may lag, and not at all for finished jobs. */
    ghost predicate InSync()
      reads this
    {
      Valid() && forall id :: id in snapshots ==> InStep(table[id], snapshots[id])
    }

    /** Every row is the one of `before` or the job as the merged view now has it: nothing else was written. */
    ghost predicate Follows(before: map<JobId, Job>)
      reads this
    {
      forall id :: id in table ==>
        (id in before && table[id] == before[id]) || (id in View() && table[id] == View()[id])
    }

    lemma FollowsItself()
      ensures Follows(table)
    {
    }

    constructor ()
      ensures Valid() && InSync() && View() == map[]
    {
      snapshots, table, lastPersisted := map[], map[], map[];
    }

    method Create(id: JobId, kind: string, key: Option<string>, resumable: bool, now: int)
      requires Valid() && id !in table
      modifies this
      ensures Valid() && View() == old(View())[id := NewJob(kind, key, resumable, now)] && Follows(old(table))
      ensures table == old(table)[id := NewJob(kind, key, resumable, now)]
      ensures snapshots == old(snapshots)[id := NewJob(kind, key, resumable, now)]
      ensures lastPersisted == old(lastPersisted)[id := now]
      ensures old(InSync()) ==> InSync()
    {
      var job := NewJob(kind, key, resumable, now);
      table := table[id := job];
      snapshots := snapshots[id := job];
      lastPersisted := lastPersisted[id := now];
    }

    ghost predicate InSyncBut(id: JobId)
      reads this
    {
      Valid() && forall k :: k in snapshots && k != id ==> InStep(table[k], snapshots[k])
    }

    /** jobs.py:1238-1274: write the snapshot when it must not wait, and forget it once a finished job is stored. */
    method WriteBehind(id: JobId, before: Status, u: Patch, now: int, writeSucceeds: bool)
      requires Valid() && id in snapshots
      modifies this
      ensures Valid() && View() == old(View())
      ensures var job := old(snapshots)[id];
        var over := job.status in {Completed, Failed, Stopped, Cancelled};
        var due := over || job.status != before || u.checkpoint.Put? || u.control.Put? || u.reason.Put?
                   || now - (if id in old(lastPersisted) then old(lastPersisted)[id] else 0) >= 1;
        if writeSucceeds && due then
          && table == old(table)[id := job]
          && snapshots == (if over then old(snapshots) - {id} else old(snapshots))
          && lastPersisted == (if over then old(lastPersisted) - {id} else old(lastPersisted)[id := now])
        else unchanged(this)
      ensures writeSucceeds && old(InSyncBut(id))
              && old(Urgent(snapshots[id], before, u) || InStep(table[id], snapshots[id]))
              ==> InSync()
    {
      hide InStep;
      var job := snapshots[id];
      SameInStep(job);
      var last := if id in lastPersisted then lastPersisted[id] else 0;
      if MustPersist(job, before, u, now, last) && writeSucceeds {
        table := table[id := job];
        if IsTerminal(job.status) {
          snapshots := snapshots - {id};
          lastPersisted := lastPersisted - {id};
        } else {
          lastPersisted := lastPersisted[id := now];
        }
      }
    }

    /**
     `_update`: whether or not the write reaches the table, the merged view is the old one with
     the update applied to that job; and when writes succeed nothing but the lagging fields is late.
     */
    method Update(id: JobId, p: Patch, now: int, writeSucceeds: bool)
      requires Valid()
      modifies this
      ensures Valid()
      ensures View() == if id in old(View()) then old(View())[id := Apply(old(View())[id], p, now)] else old(View())
      ensures Follows(old(table))
      ensures id in old(View()) && writeSucceeds ==>
                var job, r := old(View())[id], View()[id];
                (r.status != job.status || r.checkpoint != job.checkpoint || r.control != job.control
                 || r.reason != job.reason
                 || (r != job && r.status in {Completed, Failed, Stopped, Cancelled})
                 || (r != job && now - (if id in old(lastPersisted) then old(lastPersisted)[id] else 0) >= 1)
                 ==> id in table && table[id] == r)
      ensures old(InSync()) && writeSucceeds ==> InSync()
    {
      hide Apply, Effective, InStep, Urgent;
      var present := Promote(id);
      if !present {
        return;
      }
      var before := snapshots[id];
      var u := Effective(before, p);
      if u == NOTHING {
        NothingChanges(before, p, now);
        assert View() == old(View())[id := before];
        return;
      }
      var job := ApplyFields(before, p, now);
      ReplaceBehind(id, p, job, now, writeSucceeds);
    }

    /** The part of `_update` that keeps the updated job. */
    method ReplaceBehind(id: JobId, p: Patch, job: Job, now: int, writeSucceeds: bool)
      requires Valid() && id in snapshots && job == Apply(snapshots[id], p, now)
      modifies this
      ensures Valid() && View() == old(View())[id := job] && Follows(old(table))
      ensures writeSucceeds ==>
                var was := old(snapshots)[id];
                (job.status != was.status || job.checkpoint != was.checkpoint || job.control != was.control
                 || job.reason != was.reason || job.status in {Completed, Failed, Stopped, Cancelled}
                 || now - (if id in old(lastPersisted) then old(lastPersisted)[id] else 0) >= 1
                 ==> id in table && table[id] == job)
      ensures old(InSync()) && writeSucceeds ==> InSync()
    {
      hide Apply, Effective, InStep, Urgent;
      var before := snapshots[id];
      var u := Effective(before, p);
      ChangesAreEffective(before, p, now);
      if InStep(table[id], before) {
        UrgentOrInStep(table[id], before, p, now);
      }
      Replace(id, job);
      WriteBehind(id, before.status, u, now, writeSucceeds);
    }

    /** jobs.py:1183-1188: a job that is only in the table is read into memory. */
    method Promote(id: JobId) returns (present: bool)
      requires Valid()
      modifies this`snapshots
      ensures Valid() && View() == old(View()) && present == (id in View()) && (present ==> id in snapshots)
      ensures present ==> snapshots[id] == View()[id]
      ensures old(InSync()) ==> InSync()
    {
      hide InStep;
      if id !in snapshots {
        if id !in table {
          return false;
        }
        snapshots := snapshots[id := table[id]];
        SameInStep(table[id]);
      }
      return true;
    }

    method Replace(id: JobId, job: Job)
      requires Valid() && id in snapshots
      modifies this`snapshots
      ensures Valid() && id in snapshots && snapshots[id] == job && View() == old(View())[id := job]
      ensures old(InSync()) ==> InSyncBut(id)
    {
      hide InStep;
      snapshots := snapshots[id := job];
    }

    /** `get`: memory first, then the table. */
    method Get(id: JobId) returns (job: Option<Job>)
      requires Valid()
      ensures job == if id in View() then Some(View()[id]) else None
    {
      if id in snapshots {
        return Some(snapshots[id]);
      }
      if id in table {
        return Some(table[id]);
      }
      return None;
    }

    /** `list_page` without a page limit, up to order (jobs.py:1612-1631): rows in scope, then memory over them. */
    method List(scope: Scope) returns (merged: map<JobId, Job>)
      requires Valid()
      ensures merged == Listed(table, snapshots, scope)
      ensures InSync() ==> merged == Scoped(View(), scope)
      ensures InSync() ==> forall id :: id in merged <==>
                id in View()
                && (scope.All? || (scope.Finished? <==> View()[id].status in {Completed, Failed, Stopped, Cancelled}))
    {
      hide InStep, InScope;
      merged := map id | id in table && InScope(table[id].status, scope) :: table[id];
      merged := Overlay(merged, snapshots, scope);
      assert merged == Listed(table, snapshots, scope);
      forall status ensures InScope(status, scope) <==>
                scope.All? || (scope.Finished? <==> status in {Completed, Failed, Stopped, Cancelled})
      {
        InScopeMeans(status, scope);
      }
      if InSync() {
        SyncedInScope(scope);
        ListingIsView(table, snapshots, scope);
      }
    }

    lemma SyncedInScope(scope: Scope)
      requires InSync()
      ensures forall id :: id in snapshots && InScope(table[id].status, scope) ==> InScope(snapshots[id].status, scope)
    {
      forall id | id in snapshots ensures InScope(table[id].status, scope) ==> InScope(snapshots[id].status, scope) {
        assert InStep(table[id], snapshots[id]);
      }
    }

    /**
     `recover_for_startup` on whatever table a crash has left. Memory is rebuilt from the table;
     what was queued or running is cancelled or interrupted; old finished jobs are pruned; and
     the unfinished ones are queued again, oldest first. History is kept for thirty days.
     */
    method Recover(now: int) returns (queue: seq<JobId>)
      requires forall id :: id in table ==> RecordInv(table[id])
      modifies this
      ensures Valid() && InSync() && View() == table && lastPersisted == map[]
      ensures forall id :: id in table ==>
                id in old(table) && table[id] == Recovered(old(table)[id], now) && RecordInv(table[id])
                && AfterCrash(old(table)[id], table[id], now)
      ensures forall id :: id in table ==> IsTerminal(table[id].status) || IsPaused(table[id].status)
      ensures forall id :: id in old(table) && !IsTerminal(Recovered(old(table)[id], now).status) ==> id in table
      ensures |FinishedIn(table)| <= 1000
      ensures forall id :: id in FinishedIn(table) ==> table[id].updatedAt >= now - 2592000
      ensures forall id :: id in old(table) && id !in table ==>
                var dropped := Recovered(old(table)[id], now);
                dropped.updatedAt < now - 2592000
                || (|FinishedIn(table)| == 1000
                    && forall k :: k in FinishedIn(table) ==> table[k].updatedAt >= dropped.updatedAt)
      ensures OldestFirst(table, queue) && (forall id :: id in queue <==> id in table && !IsTerminal(table[id].status))
    {
      hide Recovered, RecordInv, AfterCrash;
      snapshots, lastPersisted := map[], map[];
      ghost var image := table;
      var recovered := SettleRows(table, now);
      forall id | id in recovered
        ensures RecordInv(recovered[id]) && (IsTerminal(recovered[id].status) || IsPaused(recovered[id].status))
      {
        RecoveredInv(image[id], now);
      }
      table := Prune(recovered, now);
      LoadUnfinished();
      queue := SortOldestFirst(table, snapshots.Keys);
    }

    /** jobs.py:276-303: the unfinished jobs go to memory as they stand in the table. */
    method LoadUnfinished()
      modifies this`snapshots
      ensures Valid() && InSync() && View() == table
      ensures snapshots.Keys == set id | id in table && IsPaused(table[id].status)
    {
      hide InStep;
      snapshots := map id | id in table && IsPaused(table[id].status) :: table[id];
      forall id | id in snapshots ensures InStep(table[id], snapshots[id]) {
        SameInStep(table[id]);
      }
      assert table + snapshots == table;
    }
  }

  /**
   What a crash leaves in the table while no write has been lost: rows that satisfy the record
   invariant and agree with the merged view on everything that must never be late.
   */
  lemma CrashImage(table: map<JobId, Job>, snapshots: map<JobId, Job>, id: JobId)
    requires snapshots.Keys <= table.Keys && forall k :: k in snapshots ==> InStep(table[k], snapshots[k])
    requires id in table && RecordInv((table + snapshots)[id])
    ensures var seen := (table + snapshots)[id];
      && RecordInv(table[id])
      && table[id].status == seen.status && table[id].checkpoint == seen.checkpoint && table[id].reason == seen.reason
      && table[id].control == seen.control && table[id].attempts == seen.attempts && table[id].history == seen.history
      && (IsTerminal(seen.status) ==> table[id] == seen)
  {
  }

  // ----- What listing and recovery compute -----

  /** jobs.py:1620-1631: the snapshots in scope replace or join the rows. */
  method Overlay(rows: map<JobId, Job>, snapshots: map<JobId, Job>, scope: Scope) returns (merged: map<JobId, Job>)
    ensures forall id :: id in merged <==> id in rows || (id in snapshots && InScope(snapshots[id].status, scope))
    ensures forall id :: id in merged ==>
              merged[id] == if id in snapshots && InScope(snapshots[id].status, scope) then snapshots[id] else rows[id]
  {
    hide InScope;
    merged := rows;
    var rest := snapshots.Keys;
    while rest != {}
      invariant rest <= snapshots.Keys
      invariant forall id :: id in merged <==>
                  id in rows || (id in snapshots && id !in rest && InScope(snapshots[id].status, scope))
      invariant forall id :: id in merged ==>
                  merged[id] == if id in snapshots && id !in rest && InScope(snapshots[id].status, scope)
                                then snapshots[id] else rows[id]
    {
      var id :| id in rest;
      rest := rest - {id};
      if InScope(snapshots[id].status, scope) {
        merged := merged[id := snapshots[id]];
      }
    }
  }

  /** A listing as the program merges it. */
  function Listed(table: map<JobId, Job>, snapshots: map<JobId, Job>, scope: Scope): map<JobId, Job> {
    map id | id in table.Keys + snapshots.Keys
             && ((id in table && InScope(table[id].status, scope))
                || (id in snapshots && InScope(snapshots[id].status, scope)))
      :: if id in snapshots && InScope(snapshots[id].status, scope) then snapshots[id] else table[id]
  }

  /** What a listing should be: the jobs of the merged view whose own status is in scope. */
  function Scoped(view: map<JobId, Job>, scope: Scope): map<JobId, Job> {
    map id | id in view && InScope(view[id].status, scope) :: view[id]
  }

  /**
   A listing shows the merged view exactly when no row in scope is overtaken by a snapshot out
   of scope, which a lost write of a status change would cause.
   */
  lemma ListingIsView(table: map<JobId, Job>, snapshots: map<JobId, Job>, scope: Scope)
    requires snapshots.Keys <= table.Keys
    ensures Listed(table, snapshots, scope) == Scoped(table + snapshots, scope) <==>
            (forall id :: id in snapshots && InScope(table[id].status, scope) ==> InScope(snapshots[id].status, scope))
  {
    var listed, scoped := Listed(table, snapshots, scope), Scoped(table + snapshots, scope);
    if id :| id in snapshots && InScope(table[id].status, scope) && !InScope(snapshots[id].status, scope) {
      assert id in listed && id !in scoped;
    } else {
      assert listed.Keys == scoped.Keys;
    }
  }

  /**
   Of rows that were read earlier: every one in scope without a snapshot is still the one in the table,
   none is missing, and none in scope is overtaken by a snapshot out of scope.
   */
  ghost predicate UpToDate(rows: map<JobId, Job>, table: map<JobId, Job>, snapshots: map<JobId, Job>, scope: Scope) {
    && (forall id :: id in rows && InScope(rows[id].status, scope) ==>
          if id in snapshots then InScope(snapshots[id].status, scope) else id in table && table[id] == rows[id])
    && (forall id :: id in table && id !in snapshots && InScope(table[id].status, scope) ==>
          id in rows && rows[id] == table[id])
  }

  lemma ListedAt(rows: map<JobId, Job>, snapshots: map<JobId, Job>, scope: Scope, id: JobId)
    ensures var listed := Listed(rows, snapshots, scope);
      var newer := id in snapshots && InScope(snapshots[id].status, scope);
      && (id in listed <==> newer || (id in rows && InScope(rows[id].status, scope)))
      && (id in listed ==> listed[id] == if newer then snapshots[id] else rows[id])
  {
    hide InScope;
  }

  lemma ShownIsUpToDate(rows: map<JobId, Job>, table: map<JobId, Job>, snapshots: map<JobId, Job>, scope: Scope)
    requires snapshots.Keys <= table.Keys && Listed(rows, snapshots, scope) == Scoped(table + snapshots, scope)
    ensures UpToDate(rows, table, snapshots, scope)
  {
    hide InScope, Listed;
    forall id | id in rows && InScope(rows[id].status, scope)
      ensures if id in snapshots then InScope(snapshots[id].status, scope) else id in table && table[id] == rows[id]
    {
      ListedAt(rows, snapshots, scope, id);
    }
    forall id | id in table && id !in snapshots && InScope(table[id].status, scope)
      ensures id in rows && rows[id] == table[id]
    {
      ListedAt(rows, snapshots, scope, id);
    }
  }

  lemma UpToDateIsShown(rows: map<JobId, Job>, table: map<JobId, Job>, snapshots: map<JobId, Job>, scope: Scope)
    requires snapshots.Keys <= table.Keys && UpToDate(rows, table, snapshots, scope)
    ensures Listed(rows, snapshots, scope) == Scoped(table + snapshots, scope)
  {
    hide InScope;
    var listed, scoped := Listed(rows, snapshots, scope), Scoped(table + snapshots, scope);
    assert listed.Keys == scoped.Keys;
  }

  /**
   The rows of a listing are read before an await, and the snapshots laid over them after it. The
   listing shows the merged view of the later moment exactly when the rows are up to date.
   */
  lemma ListingAcrossAnAwait(rows: map<JobId, Job>, table: map<JobId, Job>, snapshots: map<JobId, Job>, scope: Scope)
    requires snapshots.Keys <= table.Keys
    ensures Listed(rows, snapshots, scope) == Scoped(table + snapshots, scope) <==>
            UpToDate(rows, table, snapshots, scope)
  {
    hide Listed, Scoped, UpToDate;
    if Listed(rows, snapshots, scope) == Scoped(table + snapshots, scope) {
      ShownIsUpToDate(rows, table, snapshots, scope);
    }
    if UpToDate(rows, table, snapshots, scope) {
      UpToDateIsShown(rows, table, snapshots, scope);
    }
  }

  /** A job that finishes during the await, and is stored and forgotten, is listed among the active ones as it was. */
  lemma FinishedWhileListing(rows: map<JobId, Job>, id: JobId, done: Job)
    requires id in rows && InScope(rows[id].status, Active) && IsTerminal(done.status)
    ensures var listed := Listed(rows, map[], Active); id in listed && listed[id] == rows[id]
    ensures id !in Scoped(rows[id := done], Active)
    ensures Listed(rows, map[], Active) != Scoped(rows[id := done], Active)
  {
    assert id in Listed(rows, map[], Active) && id !in Scoped(rows[id := done], Active);
  }

  predicate Unsettled(status: Status) {
    status.Queued? || status.Running? || status.Pausing? || status.Stopping?
  }

  /** The two UPDATE statements of the recovery (jobs.py:202-219), without the history column. */
  function ResetRow(job: Job, now: int): Job {
    var finished := if job.finishedAt.Some? then job.finishedAt else Some(now);
    if job.status.Queued? then
      job.(status := Cancelled, progress := 0.0, message := "cancelled by restart", reason := "shutdown", control := "",
           finishedAt := finished, updatedAt := now)
    else if Unsettled(job.status) then
      var reset := job.(reason := "process_interrupted", control := "", updatedAt := now);
      if job.resumable then reset.(status := Interrupted, message := "back to the last safe point")
      else reset.(status := Cancelled, message := "cancelled by a crash", finishedAt := finished)
    else job
  }

  /** A job of a crash image after recovery. */
  function Recovered(job: Job, now: int): Job {
    var reset := ResetRow(job, now);
    if Unsettled(job.status) then
      reset.(history := AppendHistory(job.history, Entry(reset.status, now, reset.message, reset.reason)))
    else reset
  }

  /** Recovery re-establishes the record invariant from any image of jobs that satisfy it, and settles every job. */
  lemma RecoveredInv(job: Job, now: int)
    requires RecordInv(job)
    ensures var r := Recovered(job, now);
      && RecordInv(r) && !Unsettled(r.status)
      && r.attempts == job.attempts && r.checkpoint == job.checkpoint && r.startedAt == job.startedAt
      && (IsTerminal(job.status) ==> r == job)
      && (!IsTerminal(r.status) <==> job.resumable && !IsTerminal(job.status) && !job.status.Queued?)
  {
    var reset := ResetRow(job, now);
    AppendHistoryInv(job.history, Entry(reset.status, now, reset.message, reset.reason));
  }

  lemma SettledStays(job: Job, now: int)
    requires !Unsettled(job.status)
    ensures Recovered(job, now) == ResetRow(job, now)
  {
  }

  method AddHistory(job: Job, row: Job, now: int) returns (r: Job)
    requires Unsettled(job.status) && row == ResetRow(job, now)
    ensures r == Recovered(job, now)
  {
    var history := AppendStatusHistory(job.history, Entry(row.status, now, row.message, row.reason));
    r := row.(history := history);
  }

  /**
   What a crash makes of one job, told by statuses: a finished or resting job stays as it is; a queued
   one is cancelled by the shutdown; one that was in flight is interrupted if it can be resumed, and
   otherwise cancelled. A job that ends here ends now.
   */
  ghost predicate AfterCrash(job: Job, r: Job, now: int) {
    var inFlight := job.status.Running? || job.status.Pausing? || job.status.Stopping?;
    && r.kind == job.kind && r.resourceKey == job.resourceKey && r.resumable == job.resumable
    && r.createdAt == job.createdAt && r.startedAt == job.startedAt && r.attempts == job.attempts
    && r.checkpoint == job.checkpoint && r.result == job.result && r.error == job.error
    && (!job.status.Queued? && !inFlight ==> r == job)
    && (job.status.Queued? || inFlight ==>
          && r.control == "" && r.updatedAt == now
          && r.history == Newest(job.history + [Entry(r.status, now, r.message, r.reason)])
          && r.reason == (if job.status.Queued? then "shutdown" else "process_interrupted"))
    && (job.status.Queued? ==> r.status == Cancelled && r.progress == 0.0 && r.finishedAt == Some(now))
    && (inFlight ==> r.progress == job.progress)
    && (inFlight && job.resumable ==> r.status == Interrupted && r.finishedAt == None)
    && (inFlight && !job.resumable ==> r.status == Cancelled && r.finishedAt == Some(now))
    && (r.status.Completed? || r.status.Failed? || r.status.Stopped? ==> r.status == job.status)
  }

  lemma RecoveredMeans(job: Job, now: int)
    requires RecordInv(job)
    ensures AfterCrash(job, Recovered(job, now), now)
  {
  }

  /** jobs.py:196-262: the two updates, and then the history of every row they touched. */
  method SettleRows(image: map<JobId, Job>, now: int) returns (rows: map<JobId, Job>)
    ensures rows.Keys == image.Keys
    ensures forall id :: id in image ==> rows[id] == Recovered(image[id], now)
    ensures forall id :: id in image && RecordInv(image[id]) ==> AfterCrash(image[id], rows[id], now)
  {
    hide ResetRow, Recovered, Unsettled, AppendHistory, IsTerminal, RecordInv, AfterCrash;
    rows := map id | id in image :: ResetRow(image[id], now);
    forall id | id in image && !Unsettled(image[id].status) ensures rows[id] == Recovered(image[id], now) {
      SettledStays(image[id], now);
    }
    var rest := set id | id in image && Unsettled(image[id].status);
    while rest != {}
      invariant rows.Keys == image.Keys && rest <= image.Keys
      invariant forall id :: id in rest ==> Unsettled(image[id].status) && rows[id] == ResetRow(image[id], now)
      invariant forall id :: id in image && id !in rest ==> rows[id] == Recovered(image[id], now)
    {
      var id :| id in rest;
      rest := rest - {id};
      var row := AddHistory(image[id], rows[id], now);
      rows := rows[id := row];
    }
    forall id | id in image && RecordInv(image[id]) ensures AfterCrash(image[id], rows[id], now) {
      RecoveredMeans(image[id], now);
    }
  }

  /** jobs.py:263-275: finished jobs that are too old go first, then those beyond the newest thousand. */
  method Prune(rows: map<JobId, Job>, now: int) returns (kept: map<JobId, Job>)
    ensures forall id :: id in kept ==> id in rows && kept[id] == rows[id]
    ensures forall id :: id in rows && !IsTerminal(rows[id].status) ==> id in kept
    ensures |FinishedIn(kept)| <= 1000
    ensures forall id :: id in FinishedIn(kept) ==> kept[id].updatedAt >= now - 2592000
    ensures forall id :: id in rows && id !in kept ==>
              rows[id].updatedAt < now - 2592000
              || (|FinishedIn(kept)| == 1000
                  && forall k :: k in FinishedIn(kept) ==> kept[k].updatedAt >= rows[id].updatedAt)
  {
    var unexpired := map id | id in rows && !(IsTerminal(rows[id].status) && rows[id].updatedAt < now - HISTORY_SECONDS)
                       :: rows[id];
    var keep := NewestFinished(unexpired);
    kept := map id | id in unexpired && (IsTerminal(unexpired[id].status) ==> id in keep) :: unexpired[id];
    assert FinishedIn(kept) == keep;
  }

  function FinishedIn(rows: map<JobId, Job>): set<JobId> {
    set id | id in rows && IsTerminal(rows[id].status)
  }

  method Latest(rows: map<JobId, Job>, ids: set<JobId>) returns (best: JobId)
    requires ids != {} && ids <= rows.Keys
    ensures best in ids && forall id :: id in ids ==> rows[id].updatedAt <= rows[best].updatedAt
  {
    best :| best in ids;
    var rest := ids - {best};
    while rest != {}
      invariant rest <= ids && best in ids
      invariant forall id :: id in ids && id !in rest ==> rows[id].updatedAt <= rows[best].updatedAt
    {
      var id :| id in rest;
      rest := rest - {id};
      if rows[id].updatedAt > rows[best].updatedAt {
        best := id;
      }
    }
  }

  /** `ORDER BY updated_at DESC LIMIT` over the finished jobs. */
  method NewestFinished(rows: map<JobId, Job>) returns (keep: set<JobId>)
    ensures keep <= FinishedIn(rows) && |keep| <= FINISHED_LIMIT
    ensures keep != FinishedIn(rows) ==> |keep| == FINISHED_LIMIT
    ensures forall a, b :: a in keep && b in FinishedIn(rows) && b !in keep ==> rows[a].updatedAt >= rows[b].updatedAt
  {
    keep := {};
    var rest := set id | id in rows && IsTerminal(rows[id].status);
    while rest != {} && |keep| < FINISHED_LIMIT
      invariant keep + rest == FinishedIn(rows) && keep !! rest && |keep| <= FINISHED_LIMIT
      invariant forall a, b :: a in keep && b in rest ==> rows[a].updatedAt >= rows[b].updatedAt
      decreases |rest|
    {
      var best := Latest(rows, rest);
      keep := keep + {best};
      rest := rest - {best};
    }
  }

  ghost predicate OldestFirst(rows: map<JobId, Job>, q: seq<JobId>) {
    && (forall i :: 0 <= i < |q| ==> q[i] in rows)
    && (forall i, k :: 0 <= i < k < |q| ==> rows[q[i]].createdAt <= rows[q[k]].createdAt && q[i] != q[k])
  }

  method Oldest(rows: map<JobId, Job>, ids: set<JobId>) returns (first: JobId)
    requires ids != {} && ids <= rows.Keys
    ensures first in ids && forall id :: id in ids ==> rows[first].createdAt <= rows[id].createdAt
  {
    first :| first in ids;
    var rest := ids - {first};
    while rest != {}
      invariant rest <= ids && first in ids
      invariant forall id :: id in ids && id !in rest ==> rows[first].createdAt <= rows[id].createdAt
    {
      var id :| id in rest;
      rest := rest - {id};
      if rows[id].createdAt < rows[first].createdAt {
        first := id;
      }
    }
  }

  method SortOldestFirst(rows: map<JobId, Job>, ids: set<JobId>) returns (q: seq<JobId>)
    requires ids <= rows.Keys
    ensures OldestFirst(rows, q) && forall id :: id in q <==> id in ids
  {
    q := [];
    var rest := ids;
    while rest != {}
      invariant OldestFirst(rows, q) && rest <= ids
      invariant forall id :: id in ids <==> id in q || id in rest
      invariant forall i, id :: 0 <= i < |q| && id in rest ==> rows[q[i]].createdAt <= rows[id].createdAt && q[i] != id
      decreases |rest|
    {
      var first := Oldest(rows, rest);
      q := q + [first];
      rest := rest - {first};
    }
  }

  /** The engine as `recover_for_startup` starts it on a recovered table. */
  function Restarted(rows: map<JobId, Job>, queue: seq<JobId>, db: map<string, string>): Engine.State {
    Engine.State(rows, map[], {}, {}, queue, Engine.Idle, map[], map[], map[], multiset{}, false, db,
                 map[], map[], queue, 0, [], {})
  }

  /** Recovery leaves the engine in an initial state, from which all its theorems start. */
  lemma RecoveryStartsTheEngine(image: map<JobId, Job>, rows: map<JobId, Job>, queue: seq<JobId>,
                                db: map<string, string>, now: int)
    requires forall id :: id in image ==> RecordInv(image[id])
    requires forall id :: id in rows ==> id in image && rows[id] == Recovered(image[id], now)
    requires OldestFirst(rows, queue) && forall id :: id in queue <==> id in rows && !IsTerminal(rows[id].status)
    ensures Engine.Init(Restarted(rows, queue, db))
  {
    forall id | id in rows ensures RecordInv(rows[id]) && !Unsettled(rows[id].status) {
      RecoveredInv(image[id], now);
    }
  }
}
