/**
 One job as `JobManager` keeps it, and the effect of one `_update` call on it.

 Times are integers handed in by the caller; the captured database states and
 the log lines are not part of the record.
 */
module JobRecord {
  import opened Common

  datatype Status =
    | Queued | Running | Pausing | Paused | Interrupted | Stopping
    | Completed | Failed | Stopped | Cancelled

  predicate IsTerminal(s: Status) {
    s.Completed? || s.Failed? || s.Stopped? || s.Cancelled?
  }

  predicate IsPaused(s: Status) {
    s.Paused? || s.Interrupted?
  }

  /** A change from `before` to `after` that starts (another) execution attempt. */
  predicate EntersExecution(before: Status, after: Status) {
    after.Running? && (before.Queued? || IsPaused(before))
  }

  datatype Entry = Entry(status: Status, timestamp: int, message: string, reason: string)

  datatype Job = Job(
    kind: string,
    resourceKey: Option<string>,
    resumable: bool,
    status: Status,
    progress: real,
    message: string,
    result: Option<string>,
    error: Option<string>,
    checkpoint: Option<string>,
    reason: string,
    control: string,
    startedAt: Option<int>,
    finishedAt: Option<int>,
    attempts: nat,
    history: seq<Entry>,
    createdAt: int,
    updatedAt: int
  )

  /** A keyword argument of `_update`: left out, or passed with a value. */
  datatype Field<+T> = Keep | Put(value: T)

  datatype Patch = Patch(
    status: Field<Status>,
    progress: Field<real>,
    message: Field<string>,
    result: Field<Option<string>>,
    error: Field<Option<string>>,
    checkpoint: Field<Option<string>>,
    reason: Field<string>,
    control: Field<string>
  )

  const NOTHING := Patch(Keep, Keep, Keep, Keep, Keep, Keep, Keep, Keep)

  const HISTORY_LIMIT: nat := 100

  function Value<T>(f: Field<T>, old_: T): T {
    match f case Keep => old_ case Put(v) => v
  }

  /** Drops the argument when it equals the value already there. */
  function Changed<T(==)>(f: Field<T>, old_: T): Field<T> {
    if f == Put(old_) then Keep else f
  }

  function Effective(job: Job, p: Patch): Patch {
    Patch(Changed(p.status, job.status),
          Changed(p.progress, job.progress),
          Changed(p.message, job.message),
          Changed(p.result, job.result),
          Changed(p.error, job.error),
          Changed(p.checkpoint, job.checkpoint),
          Changed(p.reason, job.reason),
          Changed(p.control, job.control))
  }

  /** The newest `HISTORY_LIMIT` entries. */
  function Newest(h: seq<Entry>): seq<Entry> {
    if |h| <= HISTORY_LIMIT then h else h[|h| - HISTORY_LIMIT..]
  }

  function AppendHistory(h: seq<Entry>, e: Entry): seq<Entry> {
    if |h| > 0 && h[|h| - 1].status == e.status then h else Newest(h + [e])
  }

  /** The job after `_update(job_id, **p)` at time `now`. */
  function Apply(job: Job, p: Patch, now: int): Job {
    var u := Effective(job, p);
    if u == NOTHING then job else
      var next := Value(u.status, job.status);
      var message := Value(u.message, job.message);
      var reason := Value(u.reason, job.reason);
      var enters := EntersExecution(job.status, next);
      job.(
        status := next,
        progress := Value(u.progress, job.progress),
        message := message,
        result := Value(u.result, job.result),
        error := Value(u.error, job.error),
        checkpoint := Value(u.checkpoint, job.checkpoint),
        reason := reason,
        control := Value(u.control, job.control),
        startedAt := if enters && job.startedAt.None? then Some(now) else job.startedAt,
        attempts := if enters then job.attempts + 1 else job.attempts,
        finishedAt := if IsTerminal(next) && !IsTerminal(job.status) then Some(now) else job.finishedAt,
        history := if next == job.status then job.history
                   else AppendHistory(job.history, Entry(next, now, message, reason)),
        updatedAt := now)
  }

  function NewJob(kind: string, key: Option<string>, resumable: bool, now: int): Job {
    Job(kind, key, resumable, Queued, 0.0, "waiting", None, None, None, "", "", None, None, 0,
        [Entry(Queued, now, "waiting", "")], now, now)
  }

  /** A new job waits in the queue and has done nothing yet. */
  lemma NewJobIs(kind: string, key: Option<string>, resumable: bool, now: int)
    ensures var job := NewJob(kind, key, resumable, now);
      && job.kind == kind && job.resourceKey == key && job.resumable == resumable
      && job.status == Queued && job.progress == 0.0 && job.attempts == 0
      && job.result == None && job.error == None && job.checkpoint == None && job.reason == "" && job.control == ""
      && job.createdAt == now && job.updatedAt == now && job.startedAt == None && job.finishedAt == None
      && job.history == [Entry(Queued, now, job.message, "")]
  {
  }

  // ----- What holds of every record -----

  ghost predicate NoStutter(h: seq<Entry>) {
    forall i :: 0 < i < |h| ==> h[i - 1].status != h[i].status
  }

  ghost predicate HistoryInv(job: Job) {
    && 0 < |job.history| <= HISTORY_LIMIT
    && job.history[|job.history| - 1].status == job.status
    && NoStutter(job.history)
  }

  /** Statuses that only a job with at least one execution attempt can have. */
  predicate HasRun(s: Status) {
    s.Running? || s.Pausing? || IsPaused(s) || s.Stopping? || s.Completed? || s.Stopped?
  }

  ghost predicate RecordInv(job: Job) {
    && HistoryInv(job)
    && (job.startedAt.Some? <==> job.attempts > 0)
    && (job.finishedAt.Some? <==> IsTerminal(job.status))
    && (job.status.Pausing? || job.status.Stopping? || IsPaused(job.status) ==> job.resumable)
    && (HasRun(job.status) ==> job.attempts > 0)
  }

  /**
   What a caller of `_update` must respect: a terminal status is never left, only resumable
   jobs enter the pause and stop statuses, and a queued job only starts, fails or is cancelled.
   */
  ghost predicate Allowed(job: Job, p: Patch) {
    && (IsTerminal(job.status) ==> Value(p.status, job.status) == job.status)
    && (p.status.Put? && (p.status.value.Pausing? || p.status.value.Stopping? || IsPaused(p.status.value))
        ==> job.resumable)
    && (p.status.Put? && HasRun(p.status.value) && !p.status.value.Running? ==> job.attempts > 0)
    && (p.status == Put(Running) ==> job.attempts > 0 || job.status.Queued?)
  }

  lemma NewJobInv(kind: string, key: Option<string>, resumable: bool, now: int)
    ensures RecordInv(NewJob(kind, key, resumable, now))
  {
  }

  lemma AppendHistoryInv(h: seq<Entry>, e: Entry)
    requires NoStutter(h) && |h| <= HISTORY_LIMIT
    ensures var r := AppendHistory(h, e);
      0 < |r| <= HISTORY_LIMIT && r[|r| - 1].status == e.status && NoStutter(r)
  {
    var long := h + [e];
    var r := AppendHistory(h, e);
    if |h| == 0 || h[|h| - 1].status != e.status {
      assert NoStutter(long);
      if |long| > HISTORY_LIMIT {
        assert forall i :: 0 <= i < |r| ==> r[i] == long[i + (|long| - HISTORY_LIMIT)];
      }
    }
  }

  /**
   The status, the other fields and the bookkeeping of a job after an update, told without
   the intermediate steps: arguments that change nothing are the identity, and otherwise every
   named field holds its new value while kind, resource and creation time stay.
   */
  lemma ApplyMeaning(job: Job, p: Patch, now: int)
    ensures var r := Apply(job, p, now);
      && r.status == Value(p.status, job.status) && r.progress == Value(p.progress, job.progress)
      && r.message == Value(p.message, job.message) && r.result == Value(p.result, job.result)
      && r.error == Value(p.error, job.error) && r.checkpoint == Value(p.checkpoint, job.checkpoint)
      && r.reason == Value(p.reason, job.reason) && r.control == Value(p.control, job.control)
      && r.kind == job.kind && r.resourceKey == job.resourceKey && r.resumable == job.resumable
      && r.createdAt == job.createdAt
      && (r.updatedAt == job.updatedAt || r.updatedAt == now)
      && r.attempts == job.attempts + (if EntersExecution(job.status, r.status) then 1 else 0)
  {
  }

  /**
   The bookkeeping of an update: an attempt is counted and the first start noted when a queued or
   resting job begins to run; the end is noted when a job that was not over is; and every change of
   status is put down once, a hundred of them being kept.
   */
  lemma ApplyKeepsBooks(job: Job, p: Patch, now: int)
    ensures var r := Apply(job, p, now);
      var begins := r.status == Running && (job.status == Queued || job.status == Paused || job.status == Interrupted);
      var ends := r.status in {Completed, Failed, Stopped, Cancelled}
                  && job.status !in {Completed, Failed, Stopped, Cancelled};
      && (r == job || r.updatedAt == now)
      && r.attempts == job.attempts + (if begins then 1 else 0)
      && r.startedAt == (if begins && job.startedAt == None then Some(now) else job.startedAt)
      && r.finishedAt == (if ends then Some(now) else job.finishedAt)
      && (r.status == job.status ==> r.history == job.history)
      && (r.status != job.status && (job.history == [] || job.history[|job.history| - 1].status != r.status) ==>
            var full := job.history + [Entry(r.status, now, r.message, r.reason)];
            r.history == full[if |full| > 100 then |full| - 100 else 0..])
  {
    hide AppendHistory;
    var r := Apply(job, p, now);
    AppendHistoryMeans(job.history, Entry(r.status, now, r.message, r.reason));
  }

  /** Nothing moves when no argument differs: an update that leaves the eight fields leaves the record. */
  lemma NothingMoves(job: Job, p: Patch, now: int)
    ensures var r := Apply(job, p, now);
      r.status == job.status && r.progress == job.progress && r.message == job.message && r.result == job.result
      && r.error == job.error && r.checkpoint == job.checkpoint && r.reason == job.reason && r.control == job.control
      ==> r == job
  {
    hide AppendHistory;
  }

  lemma AppendHistoryMeans(history: seq<Entry>, e: Entry)
    ensures history == [] || history[|history| - 1].status != e.status ==>
              var full := history + [e];
              AppendHistory(history, e) == full[if |full| > 100 then |full| - 100 else 0..]
  {
  }

  lemma ApplyInv(job: Job, p: Patch, now: int)
    requires RecordInv(job) && Allowed(job, p)
    ensures RecordInv(Apply(job, p, now))
  {
    var r := Apply(job, p, now);
    if r.status != job.status {
      AppendHistoryInv(job.history, Entry(r.status, now, r.message, r.reason));
    }
  }

  lemma ApplyKeeps(job: Job, p: Patch, now: int)
    ensures RecordInv(job) && Allowed(job, p) ==> RecordInv(Apply(job, p, now))
  {
    if RecordInv(job) && Allowed(job, p) {
      ApplyInv(job, p, now);
    }
  }

  // ----- Runs of updates on one record -----

  datatype Write = Write(patch: Patch, now: int)

  function ApplyAll(job: Job, calls: seq<Write>): Job
  {
    if calls == [] then job
    else
      var last := calls[|calls| - 1];
      Apply(ApplyAll(job, calls[..|calls| - 1]), last.patch, last.now)
  }

  /** Every status change ever made, with no limit on length: the ideal history. */
  function FullHistory(job: Job, calls: seq<Write>): seq<Entry>
  {
    if calls == [] then job.history
    else
      var before := ApplyAll(job, calls[..|calls| - 1]);
      var after := ApplyAll(job, calls);
      var full := FullHistory(job, calls[..|calls| - 1]);
      if after.status == before.status then full
      else full + [Entry(after.status, after.updatedAt, after.message, after.reason)]
  }

  function CountEntries(h: seq<Entry>): nat {
    if |h| < 2 then 0
    else CountEntries(h[..|h| - 1])
         + if EntersExecution(h[|h| - 2].status, h[|h| - 1].status) then 1 else 0
  }

  ghost predicate AllAllowed(job: Job, calls: seq<Write>)
  {
    forall k :: 0 <= k < |calls| ==> Allowed(ApplyAll(job, calls[..k]), calls[k].patch)
  }

  lemma AllowedBefore(job: Job, calls: seq<Write>)
    requires calls != [] && AllAllowed(job, calls)
    ensures var init := calls[..|calls| - 1];
      AllAllowed(job, init) && Allowed(ApplyAll(job, init), calls[|calls| - 1].patch)
  {
    hide Allowed, ApplyAll;
    var init := calls[..|calls| - 1];
    forall k | 0 <= k < |init| ensures Allowed(ApplyAll(job, init[..k]), init[k].patch) {
      assert init[..k] == calls[..k];
    }
  }

  lemma {:induction false} RunInv(job: Job, calls: seq<Write>)
    requires RecordInv(job) && AllAllowed(job, calls)
    ensures RecordInv(ApplyAll(job, calls))
  {
    hide AllAllowed, Allowed, RecordInv, Apply;
    if calls != [] {
      var init := calls[..|calls| - 1];
      AllowedBefore(job, calls);
      RunInv(job, init);
      ApplyInv(ApplyAll(job, init), calls[|calls| - 1].patch, calls[|calls| - 1].now);
    }
  }

  /** The stored history is exactly the newest 100 entries of the ideal one. */
  lemma {:induction false} StoredHistoryIsNewest(job: Job, calls: seq<Write>)
    requires RecordInv(job) && AllAllowed(job, calls)
    ensures ApplyAll(job, calls).history == Newest(FullHistory(job, calls))
    ensures |FullHistory(job, calls)| > 0
    ensures FullHistory(job, calls)[|FullHistory(job, calls)| - 1].status == ApplyAll(job, calls).status
  {
    hide AllAllowed, Allowed, Apply;
    if calls != [] {
      var init := calls[..|calls| - 1];
      AllowedBefore(job, calls);
      StoredHistoryIsNewest(job, init);
      var last := calls[|calls| - 1];
      HistoryStep(ApplyAll(job, init), last.patch, last.now, FullHistory(job, init));
    }
  }

  lemma HistoryStep(before: Job, p: Patch, now: int, full: seq<Entry>)
    requires before.history == Newest(full) && |full| > 0 && full[|full| - 1].status == before.status
    ensures var after := Apply(before, p, now);
      after.history == Newest(if after.status == before.status then full
                              else full + [Entry(after.status, after.updatedAt, after.message, after.reason)])
  {
    var after := Apply(before, p, now);
    if after.status != before.status {
      NewestOfAppend(full, Entry(after.status, after.updatedAt, after.message, after.reason));
    }
  }

  lemma NewestOfAppend(h: seq<Entry>, e: Entry)
    ensures Newest(Newest(h) + [e]) == Newest(h + [e])
  {
  }

  /**
   `attempt_count` is the number of entries into execution, over any run of updates of a
   freshly created job, even when the stored history has already forgotten some of them.
   */
  lemma {:induction false} AttemptsCountEntries(kind: string, key: Option<string>, resumable: bool, t: int,
                                                calls: seq<Write>)
    requires AllAllowed(NewJob(kind, key, resumable, t), calls)
    ensures var job := NewJob(kind, key, resumable, t);
      ApplyAll(job, calls).attempts == CountEntries(FullHistory(job, calls))
  {
    hide AllAllowed, Allowed, Apply, RecordInv;
    var job := NewJob(kind, key, resumable, t);
    if calls != [] {
      var init := calls[..|calls| - 1];
      AllowedBefore(job, calls);
      AttemptsCountEntries(kind, key, resumable, t, init);
      NewJobInv(kind, key, resumable, t);
      StoredHistoryIsNewest(job, init);
      CountStep(ApplyAll(job, init), calls[|calls| - 1].patch, calls[|calls| - 1].now, FullHistory(job, init));
    }
  }

  lemma CountStep(before: Job, p: Patch, now: int, full: seq<Entry>)
    requires |full| > 0 && full[|full| - 1].status == before.status && before.attempts == CountEntries(full)
    ensures var after := Apply(before, p, now);
      after.attempts == CountEntries(if after.status == before.status then full
                                     else full + [Entry(after.status, after.updatedAt, after.message, after.reason)])
  {
    ApplyMeaning(before, p, now);
    var after := Apply(before, p, now);
    hide Apply, Effective;
    var grown := full + [Entry(after.status, after.updatedAt, after.message, after.reason)];
    assert grown[..|grown| - 1] == full;
  }

  /** A terminal status is final in every run of allowed updates. */
  lemma {:induction false} TerminalIsFinal(job: Job, calls: seq<Write>, k: nat)
    requires AllAllowed(job, calls) && k <= |calls|
    requires IsTerminal(ApplyAll(job, calls[..k]).status)
    ensures ApplyAll(job, calls).status == ApplyAll(job, calls[..k]).status
  {
    if k == |calls| {
      assert calls[..k] == calls;
    } else {
      var init := calls[..|calls| - 1];
      AllowedBefore(job, calls);
      assert init[..k] == calls[..k];
      TerminalIsFinal(job, init, k);
      assert calls[..|calls| - 1] == init;
    }
  }
}
