/** The durable background-job queue (ai/jobs.py): state machine, stale recovery, claiming. */
module Jobs {
  import opened Common
  import opened Sorting
  import opened Audit

  datatype Status = Pending | Claimed | InProgress | Succeeded | FailedRetryable | FailedTerminal

  predicate Allowed(from: Status, to: Status) {
    match from
    case Pending => to == Claimed
    case Claimed => to == InProgress || to == Pending
    case InProgress => to == Succeeded || to == FailedRetryable || to == FailedTerminal
    case FailedRetryable => to == Claimed
    case Succeeded => false
    case FailedTerminal => false
  }

  predicate Terminal(s: Status) { s == Succeeded || s == FailedTerminal }

  predicate Claimable(s: Status) { s == Pending || s == FailedRetryable }

  predicate Held(s: Status) { s == Claimed || s == InProgress }

  datatype LastError = StaleWhileClaimed | StaleWithBudgetLeft | StaleWithBudgetSpent | Reported(message: string)

  const REQUIRED_BACKEND := "TRINITY_CORE_OVERFLOW"
  const REQUIRED_ALIAS := "trinity-core"

  /** What a caller submits. */
  datatype Submission = Submission(
    idempotencyKey: string,
    taskId: string,
    taskVersion: int,
    inputReferences: map<string, Datum>,
    evidenceContent: string,
    inferenceBackend: string,
    capabilityAlias: string,
    actorType: string,
    actorId: string,
    correlationId: string,
    maxAttempts: int)

  /** One row.  Its `job_id` is its position in the queue. */
  datatype Job = Job(
    what: Submission,
    status: Status,
    createdAt: Time,
    updatedAt: Time,
    attemptCount: int,
    claimedBy: Option<string>,
    claimedAt: Option<Time>,
    aiInvocationId: Option<Id>,
    lastError: Option<LastError>)

  /** The rows in insertion order, and the index from idempotency keys to rows. */
  datatype Queue = Queue(rows: seq<Job>, keys: map<string, Id>)

  const EMPTY: Queue := Queue([], map[])

  // ---------------------------------------------------------------------------------------------
  // Transitions of one row
  // ---------------------------------------------------------------------------------------------

  /** Moves `changed` (the job with its other fields updated) to a new status. */
  function TransitionJob(job: Job, changed: Job, to: Status, now: Time): Result<Job, Error> {
    if Allowed(job.status, to) then Ok(changed.(status := to, updatedAt := now)) else Err(InvalidStateTransition)
  }

  /** The source asserts that a held row carries `claimed_at`; `RowInv` proves that it always does. */
  predicate IsStale(job: Job, threshold: Time, now: Time) {
    Held(job.status) && job.claimedAt.Some? && now - job.claimedAt.value > threshold
  }

  function RecoveryTarget(job: Job): Status
    requires Held(job.status)
  {
    if job.status == Claimed then Pending
    else if job.attemptCount < job.what.maxAttempts then FailedRetryable
    else FailedTerminal
  }

  function RecoveryError(job: Job): LastError
    requires Held(job.status)
  {
    if job.status == Claimed then StaleWhileClaimed
    else if job.attemptCount < job.what.maxAttempts then StaleWithBudgetLeft
    else StaleWithBudgetSpent
  }

  /** Recovery goes through the same transition table and never meets a forbidden edge. */
  function RecoverStaleClaim(job: Job, now: Time): (r: Job)
    requires Held(job.status)
    ensures Allowed(job.status, r.status) && !Held(r.status)
    ensures r.attemptCount == job.attemptCount && r.what == job.what && r.createdAt == job.createdAt
    ensures r.claimedBy == None && r.claimedAt == None && r.lastError.Some?
  {
    var changed := job.(claimedBy := None, claimedAt := None, lastError := Some(RecoveryError(job)));
    TransitionJob(job, changed, RecoveryTarget(job), now).value
  }

  function StatusText(s: Status): string {
    match s
    case Pending => "PENDING"
    case Claimed => "CLAIMED"
    case InProgress => "IN_PROGRESS"
    case Succeeded => "SUCCEEDED"
    case FailedRetryable => "FAILED_RETRYABLE"
    case FailedTerminal => "FAILED_TERMINAL"
  }

  function RecoveryEvent(id: Id, recovered: Job, threshold: Time, now: Time): Event {
    Event("BACKGROUND_JOB_STALE_RECOVERED", now, "SYSTEM", "background-job-stale-recovery", "BackgroundJob", id,
          recovered.what.correlationId, None,
          map["task_id" := Text(recovered.what.taskId),
              "task_version" := Number(recovered.what.taskVersion),
              "recovered_status" := Text(StatusText(recovered.status)),
              "attempt_count" := Number(recovered.attemptCount),
              "max_attempts" := Number(recovered.what.maxAttempts),
              "stale_threshold" := Number(threshold)])
  }

  // ---------------------------------------------------------------------------------------------
  // The queue invariant
  // ---------------------------------------------------------------------------------------------

  predicate RowInv(job: Job) {
    && job.what.maxAttempts >= 1
    && 0 <= job.attemptCount <= job.what.maxAttempts
    && (job.status in {Pending, Claimed, FailedRetryable} ==> job.attemptCount < job.what.maxAttempts)
    && (job.status in {InProgress, Succeeded, FailedTerminal} ==> job.attemptCount >= 1)
    && (Held(job.status) ==> job.claimedAt.Some? && job.claimedBy.Some?)
    && (job.status == Succeeded <==> job.aiInvocationId.Some?)
    && job.what.inferenceBackend == REQUIRED_BACKEND && job.what.capabilityAlias == REQUIRED_ALIAS
  }

  /** The key index and the rows are inverse to each other. */
  predicate KeysInv(q: Queue) {
    && (forall key :: key in q.keys ==> q.keys[key] < |q.rows| && q.rows[q.keys[key]].what.idempotencyKey == key)
    && (forall id: Id :: id < |q.rows| ==>
          q.rows[id].what.idempotencyKey in q.keys && q.keys[q.rows[id].what.idempotencyKey] == id)
  }

  predicate QueueInv(q: Queue) {
    (forall id: Id :: id < |q.rows| ==> RowInv(q.rows[id])) && KeysInv(q)
  }

  // ---------------------------------------------------------------------------------------------
  // Operations on the queue
  // ---------------------------------------------------------------------------------------------

  const STALE_THRESHOLD: Time := 600_000_000

  predicate Acceptable(s: Submission) {
    && s.idempotencyKey != ""
    && s.inferenceBackend == REQUIRED_BACKEND && s.capabilityAlias == REQUIRED_ALIAS
    && s.actorType in ACTOR_TYPES
    && s.maxAttempts >= 1
  }

  function NewJob(s: Submission, now: Time): Job {
    Job(s, Pending, now, now, 0, None, None, None, None)
  }

  function Submit(q: Queue, s: Submission, now: Time): (Queue, Result<Id, Error>) {
    if !Acceptable(s) then (q, Err(ValidationError))
    else if s.idempotencyKey in q.keys then (q, Ok(q.keys[s.idempotencyKey]))
    else (Queue(q.rows + [NewJob(s, now)], q.keys[s.idempotencyKey := |q.rows|]), Ok(|q.rows|))
  }

  function RecoverRow(job: Job, threshold: Time, now: Time): Job {
    if IsStale(job, threshold, now) then RecoverStaleClaim(job, now) else job
  }

  /** One recovery pass over the first n rows: the rows, and the events in row order. */
  function RecoverRows(rows: seq<Job>, threshold: Time, now: Time, n: nat): (r: seq<Job>)
    requires n <= |rows|
    ensures |r| == |rows|
  {
    seq(|rows|, i requires 0 <= i < |rows| => if i < n then RecoverRow(rows[i], threshold, now) else rows[i])
  }

  function StaleIds(rows: seq<Job>, threshold: Time, now: Time, n: nat): (ids: seq<Id>)
    requires n <= |rows|
  {
    if n == 0 then []
    else StaleIds(rows, threshold, now, n - 1) + (if IsStale(rows[n - 1], threshold, now) then [n - 1] else [])
  }

  function RecoveryEventOf(id: Id, job: Job, threshold: Time, now: Time): seq<Event> {
    if IsStale(job, threshold, now) then [RecoveryEvent(id, RecoverStaleClaim(job, now), threshold, now)] else []
  }

  function RecoveryEvents(rows: seq<Job>, threshold: Time, now: Time, n: nat): seq<Event>
    requires n <= |rows|
  {
    if n == 0 then []
    else RecoveryEvents(rows, threshold, now, n - 1) + RecoveryEventOf(n - 1, rows[n - 1], threshold, now)
  }

  lemma RecoverOneMore(rows: seq<Job>, log: seq<Event>, threshold: Time, now: Time, n: nat)
    requires n < |rows|
    ensures RecoverRows(rows, threshold, now, n)[n] == rows[n]
    ensures RecoverRows(rows, threshold, now, n + 1) ==
            RecoverRows(rows, threshold, now, n)[n := RecoverRow(rows[n], threshold, now)]
    ensures log + RecoveryEvents(rows, threshold, now, n + 1) ==
            (log + RecoveryEvents(rows, threshold, now, n)) + RecoveryEventOf(n, rows[n], threshold, now)
  {
  }

  function Recover(q: Queue, threshold: Time, now: Time): Queue {
    q.(rows := RecoverRows(q.rows, threshold, now, |q.rows|))
  }

  function AvailableIds(rows: seq<Job>): (ids: seq<Id>)
    ensures forall id: Id :: id in ids <==> id < |rows| && (rows[id].status == Pending || rows[id].status == FailedRetryable)
    ensures forall i :: 0 <= i < |ids| ==> ids[i] < |rows|
    ensures forall i, j :: 0 <= i < j < |ids| ==> ids[i] < ids[j]
  {
    if rows == [] then []
    else
      var n := |rows| - 1;
      AvailableIds(rows[..n]) + (if Claimable(rows[n].status) then [n] else [])
  }

  function AgeOf(rows: seq<Job>, id: Id): Key {
    Key(if id < |rows| then rows[id].createdAt else 0, id)
  }

  function ByAge(rows: seq<Job>): Id -> Key {
    (id: Id) => AgeOf(rows, id)
  }

  predicate Older(rows: seq<Job>, a: Id, b: Id) {
    Less(AgeOf(rows, a), AgeOf(rows, b))
  }

  /** The jobs that a claim takes, oldest first, from rows that have been through recovery. */
  function Chosen(rows: seq<Job>, limit: int): seq<Id> {
    if limit <= 0 then [] else Take(Sort(AvailableIds(rows), ByAge(rows)), limit)
  }

  function ClaimRow(job: Job, worker: string, now: Time): Job {
    job.(status := Claimed, updatedAt := now, claimedBy := Some(worker), claimedAt := Some(now))
  }

  function ClaimRows(rows: seq<Job>, ids: seq<Id>, worker: string, now: Time): (r: seq<Job>)
    ensures |r| == |rows|
    ensures forall i: Id :: i < |rows| ==> r[i] == if i in ids then ClaimRow(rows[i], worker, now) else rows[i]
  {
    seq(|rows|, (i: int) requires 0 <= i < |rows| => if i in ids then ClaimRow(rows[i], worker, now) else rows[i])
  }

  function ClaimedIds(q: Queue, limit: int, now: Time): seq<Id> {
    if limit <= 0 then [] else Chosen(Recover(q, STALE_THRESHOLD, now).rows, limit)
  }

  function ClaimNext(q: Queue, limit: int, worker: string, now: Time): Queue {
    if limit <= 0 then q
    else
      var r := Recover(q, STALE_THRESHOLD, now);
      r.(rows := ClaimRows(r.rows, ClaimedIds(q, limit, now), worker, now))
  }

  /** Looks up a row, moves it and stores it back; an unknown id or forbidden edge changes nothing. */
  function Update(q: Queue, id: Id, changed: Job, to: Status, now: Time): (Queue, Result<Job, Error>) {
    if id >= |q.rows| then (q, Err(NotFoundError))
    else
      var r := TransitionJob(q.rows[id], changed, to, now);
      if r.Ok? then (q.(rows := q.rows[id := r.value]), r) else (q, r)
  }

  function RowAt(q: Queue, id: Id): Job {
    if id < |q.rows| then q.rows[id] else NewJob(Submission("", "", 0, map[], "", "", "", "", "", "", 0), 0)
  }

  function StartAttempt(q: Queue, id: Id, now: Time): (Queue, Result<Job, Error>) {
    var job := RowAt(q, id);
    Update(q, id, job.(attemptCount := job.attemptCount + 1), InProgress, now)
  }

  function FinishJob(q: Queue, id: Id, invocation: Id, now: Time): (Queue, Result<Job, Error>) {
    Update(q, id, RowAt(q, id).(aiInvocationId := Some(invocation)), Succeeded, now)
  }

  function FailureTarget(job: Job, retryable: bool): Status {
    if retryable && job.attemptCount < job.what.maxAttempts then FailedRetryable else FailedTerminal
  }

  function FailJob(q: Queue, id: Id, error: string, retryable: bool, now: Time): (Queue, Result<Job, Error>) {
    var job := RowAt(q, id);
    Update(q, id, job.(lastError := Some(Reported(error))), FailureTarget(job, retryable), now)
  }

  function ReleaseJob(q: Queue, id: Id, now: Time): (Queue, Result<Job, Error>) {
    Update(q, id, RowAt(q, id).(claimedBy := None, claimedAt := None), Pending, now)
  }

  // ---------------------------------------------------------------------------------------------
  // What one claim takes
  // ---------------------------------------------------------------------------------------------

  /**
   * A claim takes exactly the oldest min(limit, available) available jobs, in ascending order of
   * (created_at, job_id).
   */
  lemma ChosenAreOldest(rows: seq<Job>, limit: int)
    requires limit >= 0
    ensures var chosen, available := Chosen(rows, limit), AvailableIds(rows);
      && |chosen| == (if limit < |available| then limit else |available|)
      && (forall i, j :: 0 <= i < j < |chosen| ==> Older(rows, chosen[i], chosen[j]))
      && (forall id: Id :: id in chosen ==> id in available)
      && (forall c: Id, id: Id :: c in chosen && id in available && id !in chosen ==> Older(rows, c, id))
  {
    hide AvailableIds, Sort;
    var available, key := AvailableIds(rows), ByAge(rows);
    var sorted := Sort(available, key);
    var chosen := Chosen(rows, limit);
    SortStrictlyAscends(available, key);
    SortKeepsElements(available, key);
    if limit > 0 {
      assert chosen == sorted[..|chosen|];
      forall c: Id, id: Id | c in chosen && id in sorted && id !in chosen ensures Older(rows, c, id) {
        FirstBeforeRest(sorted, key, |chosen|, c, id);
      }
    }
  }

  /** The chosen ids are distinct claimable rows. */
  lemma ChosenAreClaimable(rows: seq<Job>, limit: int)
    ensures forall i :: 0 <= i < |Chosen(rows, limit)| ==>
              var job := Chosen(rows, limit)[i]; job < |rows| && (rows[job].status == Pending || rows[job].status == FailedRetryable)
    ensures forall i, j :: 0 <= i < j < |Chosen(rows, limit)| ==> Chosen(rows, limit)[i] != Chosen(rows, limit)[j]
  {
    if limit > 0 {
      ChosenAreOldest(rows, limit);
      var chosen := Chosen(rows, limit);
      forall i | 0 <= i < |chosen|
        ensures chosen[i] < |rows| && (rows[chosen[i]].status == Pending || rows[chosen[i]].status == FailedRetryable)
      {
        assert chosen[i] in chosen;
      }
      assert forall i, j :: 0 <= i < j < |chosen| ==> Older(rows, chosen[i], chosen[j]);
    }
  }

  /** The reported ids are exactly the stale rows. */
  lemma {:induction false} ReportedAreStale(rows: seq<Job>, threshold: Time, now: Time, n: nat, id: Id)
    requires n <= |rows|
    ensures id in StaleIds(rows, threshold, now, n) <==> id < n && IsStale(rows[id], threshold, now)
  {
    hide IsStale;
    if n > 0 { ReportedAreStale(rows, threshold, now, n - 1, id); }
  }

  lemma EventOfStale(id: Id, job: Job, threshold: Time, now: Time)
    ensures |RecoveryEventOf(id, job, threshold, now)| == if IsStale(job, threshold, now) then 1 else 0
  {}

  lemma {:induction false} EventsOfStale(rows: seq<Job>, threshold: Time, now: Time, n: nat)
    requires n <= |rows|
    ensures var ids, events := StaleIds(rows, threshold, now, n), RecoveryEvents(rows, threshold, now, n);
      && |events| == |ids|
      && forall k :: 0 <= k < |ids| ==> ids[k] < n && RecoveryEventOf(ids[k], rows[ids[k]], threshold, now) == [events[k]]
  {
    hide IsStale, RecoveryEventOf;
    if n > 0 {
      EventsOfStale(rows, threshold, now, n - 1);
      EventOfStale(n - 1, rows[n - 1], threshold, now);
    }
  }

  /**
   * Each recovered row has exactly one event, in the same order: about that row, by the recovery
   * itself, with the status that the row is recovered to and the attempts it has spent.
   */
  lemma RecoveryIsAudited(rows: seq<Job>, threshold: Time, now: Time, n: nat)
    requires n <= |rows|
    ensures var ids, events := StaleIds(rows, threshold, now, n), RecoveryEvents(rows, threshold, now, n);
      && |events| == |ids|
      && forall k :: 0 <= k < |ids| ==>
           && ids[k] < n
           && events[k] == (
                var job := rows[ids[k]];
                Event("BACKGROUND_JOB_STALE_RECOVERED", now, "SYSTEM", "background-job-stale-recovery", "BackgroundJob", ids[k],
                      job.what.correlationId, None,
                      map["task_id" := Text(job.what.taskId),
                          "task_version" := Number(job.what.taskVersion),
                          "recovered_status" := Text(if job.status == Claimed then "PENDING"
                                                     else if job.attemptCount < job.what.maxAttempts then "FAILED_RETRYABLE"
                                                     else "FAILED_TERMINAL"),
                          "attempt_count" := Number(job.attemptCount),
                          "max_attempts" := Number(job.what.maxAttempts),
                          "stale_threshold" := Number(threshold)]))
  {
    hide StaleIds, RecoveryEvents;
    EventsOfStale(rows, threshold, now, n);
  }

  /**
   * After a claim exactly the chosen rows carry this worker's claim with nothing else changed, every
   * other row is as recovery left it, and a chosen row goes stale only once the threshold has passed.
   */
  lemma ClaimHolds(q: Queue, limit: int, worker: string, now: Time, id: Id, threshold: Time, later: Time)
    requires id < |q.rows|
    ensures var chosen := ClaimedIds(q, limit, now);
      var before, after := Recover(q, STALE_THRESHOLD, now).rows[id], ClaimNext(q, limit, worker, now).rows;
      && |after| == |q.rows|
      && (id in chosen ==> (before.status == Pending || before.status == FailedRetryable)
                           && after[id] == before.(status := Claimed, claimedBy := Some(worker), claimedAt := Some(now), updatedAt := now)
                           && after[id].attemptCount == q.rows[id].attemptCount
                           && (IsStale(after[id], threshold, later) <==> later > now + threshold))
      && (id !in chosen ==> after[id] == if limit <= 0 then q.rows[id] else before)
  {
    hide Chosen;
    if limit > 0 {
      var rows := Recover(q, STALE_THRESHOLD, now).rows;
      var chosen := ClaimedIds(q, limit, now);
      ChosenAreClaimable(rows, limit);
      if id in chosen {
        var i :| 0 <= i < |chosen| && chosen[i] == id;
      }
    }
  }

  /** The waiting rows that come before `id` in the order of (created_at, job_id). */
  ghost function OlderWaiting(rows: seq<Job>, id: Id): set<Id>
    requires id < |rows|
  {
    set i: Id | i < |rows| && (rows[i].status == Pending || rows[i].status == FailedRetryable)
                && (rows[i].createdAt < rows[id].createdAt || (rows[i].createdAt == rows[id].createdAt && i < id))
  }

  ghost function Below(ids: seq<Id>, key: Id -> Key, id: Id): set<Id> {
    set i | i in ids && Less(key(i), key(id))
  }

  /** In a strictly ascending listing exactly k elements are less than the one at position k. */
  lemma RankCounts(ids: seq<Id>, key: Id -> Key, k: nat)
    requires StrictlyAscending(ids, key) && k < |ids|
    ensures |Below(ids, key, ids[k])| == k
  {
    forall i: Id ensures i in Below(ids, key, ids[k]) <==> i in ids[..k] {
      if i in ids {
        var j :| 0 <= j < |ids| && ids[j] == i;
        assert j < k ==> Less(key(ids[j]), key(ids[k])) && ids[..k][j] == i;
        assert k < j ==> Less(key(ids[k]), key(ids[j]));
      }
      if i in ids[..k] {
        var h :| 0 <= h < k && ids[..k][h] == i;
        assert Less(key(ids[h]), key(ids[k]));
      }
    }
    assert Below(ids, key, ids[k]) == Elements(ids[..k]);
    forall i, j | 0 <= i < j < k ensures ids[..k][i] != ids[..k][j] { assert Less(key(ids[i]), key(ids[j])); }
    DistinctCount(ids[..k]);
  }

  /**
   * Exactly which rows a claim takes.  After recovery a row is taken if and only if it is PENDING or
   * FAILED_RETRYABLE and fewer than `limit` rows of those two statuses come before it in the order of
   * (created_at, job_id): first attempts and retries stand in one line.
   */
  lemma ClaimedIff(q: Queue, limit: int, now: Time, id: Id)
    requires limit >= 1
    ensures var rows := Recover(q, STALE_THRESHOLD, now).rows;
      id in ClaimedIds(q, limit, now) <==>
        id < |rows| && (rows[id].status == Pending || rows[id].status == FailedRetryable) && |OlderWaiting(rows, id)| < limit
  {
    hide Sort, Recover, AvailableIds, StrictlyAscending;
    var rows := Recover(q, STALE_THRESHOLD, now).rows;
    var available, key := AvailableIds(rows), ByAge(rows);
    var sorted := Sort(available, key);
    SortStrictlyAscends(available, key);
    SortKeepsElements(available, key);
    TakenAreListed(sorted, limit, id);
    if id in sorted {
      var k :| 0 <= k < |sorted| && sorted[k] == id;
      RankCounts(sorted, key, k);
      WaitingIsBelow(rows, sorted, id);
      PositionDecides(sorted, key, k, limit);
    }
  }

  lemma TakenAreListed(sorted: seq<Id>, limit: int, id: Id)
    requires limit >= 1
    ensures id in Take(sorted, limit) ==> id in sorted
  {}

  lemma WaitingIsBelow(rows: seq<Job>, sorted: seq<Id>, id: Id)
    requires id < |rows|
    requires forall i: Id :: i in sorted <==> i < |rows| && (rows[i].status == Pending || rows[i].status == FailedRetryable)
    ensures OlderWaiting(rows, id) == Below(sorted, ByAge(rows), id)
  {}

  lemma PositionDecides(sorted: seq<Id>, key: Id -> Key, k: nat, limit: int)
    requires StrictlyAscending(sorted, key) && k < |sorted| && limit >= 1
    ensures sorted[k] in Take(sorted, limit) <==> k < limit
  {
    var page := Take(sorted, limit);
    if k < limit { assert page[k] == sorted[k]; }
    if sorted[k] in page {
      var j :| 0 <= j < |page| && page[j] == sorted[k];
      assert j < k ==> Less(key(sorted[j]), key(sorted[k]));
      assert k < j ==> Less(key(sorted[k]), key(sorted[j]));
    }
  }

  /**
   * What recovery makes of each row, in terms of its status, the age of its claim and its budget: a
   * stale claim goes back to PENDING, a stale attempt may be retried while budget is left and is
   * finished for good otherwise, and every other row stays exactly as it is.
   */
  lemma RecoveryTable(q: Queue, now: Time, id: Id)
    requires id < |q.rows|
    ensures var was, after := q.rows[id], Recover(q, STALE_THRESHOLD, now).rows[id];
      var aged := was.claimedAt.Some? && now - was.claimedAt.value > 600_000_000;
      && (was.status == Claimed && aged ==> after.status == Pending && after.lastError == Some(StaleWhileClaimed))
      && (was.status == InProgress && aged && was.attemptCount < was.what.maxAttempts ==>
            after.status == FailedRetryable && after.lastError == Some(StaleWithBudgetLeft))
      && (was.status == InProgress && aged && was.attemptCount >= was.what.maxAttempts ==>
            after.status == FailedTerminal && after.lastError == Some(StaleWithBudgetSpent))
      && (!((was.status == Claimed || was.status == InProgress) && aged) ==> after == was)
      && (after == was || (after.claimedBy == None && after.claimedAt == None && after.lastError.Some? && after.updatedAt == now))
      && after.attemptCount == was.attemptCount && after.what == was.what && after.createdAt == was.createdAt
  {}

  /** A call stores and returns this row when it is allowed, and otherwise raises this error and changes nothing. */
  predicate Gives(call: (Queue, Result<Job, Error>), q: Queue, id: Id, allowed: bool, wrong: Error, row: Job) {
    if allowed && id < |q.rows| then call.0 == q.(rows := q.rows[id := row]) && call.1 == Ok(row)
    else call.0 == q && call.1 == Err(wrong)
  }

  /**
   * What the four calls of an attempt do.  Each demands its own status, otherwise raises and changes
   * nothing, and rewrites no field of the row but those written here.
   */
  lemma AttemptCalls(q: Queue, id: Id, invocation: Id, error: string, retryable: bool, now: Time)
    ensures var row := RowAt(q, id); var held, running := id < |q.rows| && row.status == Claimed, id < |q.rows| && row.status == InProgress;
      var wrong := if id < |q.rows| then InvalidStateTransition else NotFoundError;
      && Gives(StartAttempt(q, id, now), q, id, held, wrong,
               row.(status := InProgress, attemptCount := row.attemptCount + 1, updatedAt := now))
      && Gives(FinishJob(q, id, invocation, now), q, id, running, wrong,
               row.(status := Succeeded, aiInvocationId := Some(invocation), updatedAt := now))
      && Gives(FailJob(q, id, error, retryable, now), q, id, running, wrong,
               row.(status := if retryable && row.attemptCount < row.what.maxAttempts then FailedRetryable else FailedTerminal,
                    lastError := Some(Reported(error)), updatedAt := now))
      && Gives(ReleaseJob(q, id, now), q, id, held, wrong,
               row.(status := Pending, claimedBy := None, claimedAt := None, updatedAt := now))
  {}

  /**
   * What a submission does.  A known key gives back the one job that has it and changes nothing; a
   * new key, with arguments that pass every check, appends a PENDING row with no attempt spent.
   */
  lemma SubmitMeans(q: Queue, s: Submission, now: Time)
    requires QueueInv(q)
    ensures var (after, r) := Submit(q, s, now);
      && (r.Ok? <==> s.idempotencyKey != "" && s.inferenceBackend == "TRINITY_CORE_OVERFLOW"
                     && s.capabilityAlias == "trinity-core" && s.maxAttempts >= 1
                     && s.actorType in {"SYSTEM", "USER", "AGENT", "SERVICE", "EXTERNAL_SYSTEM"})
      && (r.Err? ==> after == q && r.error == ValidationError)
      && (r.Ok? ==> r.value < |after.rows| && after.rows[r.value].what.idempotencyKey == s.idempotencyKey)
      && (r.Ok? && (exists id: Id :: id < |q.rows| && q.rows[id].what.idempotencyKey == s.idempotencyKey) ==>
            after == q && r.value < |q.rows|)
      && (r.Ok? && (forall id: Id :: id < |q.rows| ==> q.rows[id].what.idempotencyKey != s.idempotencyKey) ==>
            r.value == |q.rows|
            && after.rows == q.rows + [Job(s, Pending, now, now, 0, None, None, None, None)])
  {}

  lemma ClaimOneMore(rows: seq<Job>, ids: seq<Id>, n: nat, worker: string, now: Time)
    requires n < |ids| && ids[n] < |rows| && ids[n] !in ids[..n]
    ensures ClaimRows(rows, ids[..n], worker, now)[ids[n]] == rows[ids[n]]
    ensures ClaimRows(rows, ids[..n + 1], worker, now) ==
            ClaimRows(rows, ids[..n], worker, now)[ids[n] := ClaimRow(rows[ids[n]], worker, now)]
  {
    assert ids[..n + 1] == ids[..n] + [ids[n]];
  }

  // ---------------------------------------------------------------------------------------------
  // The in-memory repository
  // ---------------------------------------------------------------------------------------------

  class BackgroundJobRepository {
    var rows: seq<Job>
    var keys: map<string, Id>
    const audit: AuditLog

    ghost function Snapshot(): Queue
      reads this
    {
      Queue(rows, keys)
    }

    ghost predicate Valid()
      reads this, audit
    {
      QueueInv(Snapshot()) && audit.Valid()
    }

    constructor (audit: AuditLog)
      requires audit.Valid()
      ensures Valid() && Snapshot() == EMPTY && this.audit == audit
    {
      rows, keys := [], map[];
      this.audit := audit;
    }

    method SubmitJob(s: Submission, now: Time) returns (r: Result<Id, Error>)
      requires Valid()
      modifies this
      ensures Valid()
      ensures (Snapshot(), r) == Submit(old(Snapshot()), s, now)
    {
      SubmitKeepsInv(Snapshot(), s, now);
      if s.idempotencyKey == "" { return Err(ValidationError); }
      if s.inferenceBackend != REQUIRED_BACKEND || s.capabilityAlias != REQUIRED_ALIAS { return Err(ValidationError); }
      if s.actorType !in ACTOR_TYPES { return Err(ValidationError); }
      if s.maxAttempts < 1 { return Err(ValidationError); }
      if s.idempotencyKey in keys {
        return Ok(keys[s.idempotencyKey]);
      }
      var id := |rows|;
      rows := rows + [NewJob(s, now)];
      keys := keys[s.idempotencyKey := id];
      r := Ok(id);
    }

    /** Recovers one row if it is stale, and audits the recovery. */
    method RecoverIfStale(id: Id, threshold: Time, now: Time) returns (done: bool)
      requires id < |rows| && audit.Valid()
      modifies this`rows, audit
      ensures audit.Valid()
      ensures done == IsStale(old(rows[id]), threshold, now)
      ensures rows == old(rows)[id := RecoverRow(old(rows[id]), threshold, now)]
      ensures audit.events == old(audit.events) + RecoveryEventOf(id, old(rows[id]), threshold, now)
    {
      var job := rows[id];
      done := IsStale(job, threshold, now);
      if done {
        var r := RecoverStaleClaim(job, now);
        rows := rows[id := r];
        var _ := audit.RecordAuditEvent(RecoveryEvent(id, r, threshold, now), true);
      }
    }

    method RecoverPass(threshold: Time, now: Time) returns (recovered: seq<Id>)
      requires audit.Valid()
      modifies this`rows, audit
      ensures audit.Valid()
      ensures rows == RecoverRows(old(rows), threshold, now, |old(rows)|)
      ensures recovered == StaleIds(old(rows), threshold, now, |old(rows)|)
      ensures audit.events == old(audit.events) + RecoveryEvents(old(rows), threshold, now, |old(rows)|)
    {
      hide RecoverRow, RecoveryEventOf;
      ghost var before, log := rows, audit.events;
      recovered := [];
      var i := 0;
      while i < |rows|
        invariant 0 <= i <= |rows| == |before|
        invariant rows == RecoverRows(before, threshold, now, i)
        invariant recovered == StaleIds(before, threshold, now, i)
        invariant audit.Valid()
        invariant audit.events == log + RecoveryEvents(before, threshold, now, i)
      {
        RecoverOneMore(before, log, threshold, now, i);
        var done := RecoverIfStale(i, threshold, now);
        if done { recovered := recovered + [i]; }
        i := i + 1;
      }
    }

    method RecoverStaleClaims(threshold: Time, now: Time) returns (recovered: seq<Id>)
      requires Valid()
      modifies this`rows, audit
      ensures Valid()
      ensures Snapshot() == Recover(old(Snapshot()), threshold, now)
      ensures recovered == StaleIds(old(rows), threshold, now, |old(rows)|)
      ensures audit.events == old(audit.events) + RecoveryEvents(old(rows), threshold, now, |old(rows)|)
    {
      RecoverKeepsInv(Snapshot(), threshold, now);
      recovered := RecoverPass(threshold, now);
    }

    method ClaimNextPending(limit: int, worker: string, now: Time) returns (claimed: seq<Id>)
      requires Valid()
      modifies this`rows, audit
      ensures Valid()
      ensures Snapshot() == ClaimNext(old(Snapshot()), limit, worker, now)
      ensures claimed == ClaimedIds(old(Snapshot()), limit, now)
      ensures audit.events == old(audit.events) +
              (if limit <= 0 then [] else RecoveryEvents(old(rows), STALE_THRESHOLD, now, |old(rows)|))
    {
      hide QueueInv, RecoverRows, RecoveryEvents, ClaimRows;
      ClaimKeepsInv(Snapshot(), limit, worker, now);
      if limit <= 0 { return []; }
      var _ := RecoverStaleClaims(STALE_THRESHOLD, now);
      var candidates := Sort(AvailableIds(rows), ByAge(rows));
      claimed := Take(candidates, limit);
      ChosenAreClaimable(rows, limit);
      ClaimEach(claimed, worker, now);
    }

    method ClaimEach(ids: seq<Id>, worker: string, now: Time)
      requires forall i :: 0 <= i < |ids| ==>
        ids[i] < |rows| && (rows[ids[i]].status == Pending || rows[ids[i]].status == FailedRetryable)
      requires forall i, j :: 0 <= i < j < |ids| ==> ids[i] != ids[j]
      modifies this`rows
      ensures rows == ClaimRows(old(rows), ids, worker, now)
    {
      var i := 0;
      while i < |ids|
        invariant 0 <= i <= |ids|
        invariant rows == ClaimRows(old(rows), ids[..i], worker, now)
      {
        ClaimOneMore(old(rows), ids, i, worker, now);
        var job := rows[ids[i]];
        var t := TransitionJob(job, job.(claimedBy := Some(worker), claimedAt := Some(now)), Claimed, now);
        rows := rows[ids[i] := t.value];
        i := i + 1;
      }
      assert ids[..i] == ids;
    }

    method MarkInProgress(id: Id, now: Time) returns (r: Result<Job, Error>)
      requires Valid()
      modifies this
      ensures Valid()
      ensures (Snapshot(), r) == StartAttempt(old(Snapshot()), id, now)
    {
      hide QueueInv;
      StartKeepsInv(Snapshot(), id, now);
      if id >= |rows| { return Err(NotFoundError); }
      var job := rows[id];
      r := TransitionJob(job, job.(attemptCount := job.attemptCount + 1), InProgress, now);
      if r.Ok? { rows := rows[id := r.value]; }
    }

    method MarkSucceeded(id: Id, invocation: Id, now: Time) returns (r: Result<Job, Error>)
      requires Valid()
      modifies this
      ensures Valid()
      ensures (Snapshot(), r) == FinishJob(old(Snapshot()), id, invocation, now)
    {
      hide QueueInv;
      FinishKeepsInv(Snapshot(), id, invocation, now);
      if id >= |rows| { return Err(NotFoundError); }
      r := TransitionJob(rows[id], rows[id].(aiInvocationId := Some(invocation)), Succeeded, now);
      if r.Ok? { rows := rows[id := r.value]; }
    }

    method MarkFailed(id: Id, error: string, retryable: bool, now: Time) returns (r: Result<Job, Error>)
      requires Valid()
      modifies this
      ensures Valid()
      ensures (Snapshot(), r) == FailJob(old(Snapshot()), id, error, retryable, now)
    {
      hide QueueInv;
      FailKeepsInv(Snapshot(), id, error, retryable, now);
      if id >= |rows| { return Err(NotFoundError); }
      var job := rows[id];
      var target := FailedTerminal;
      if retryable && job.attemptCount < job.what.maxAttempts { target := FailedRetryable; }
      r := TransitionJob(job, job.(lastError := Some(Reported(error))), target, now);
      if r.Ok? { rows := rows[id := r.value]; }
    }

    method ReleaseClaim(id: Id, now: Time) returns (r: Result<Job, Error>)
      requires Valid()
      modifies this
      ensures Valid()
      ensures (Snapshot(), r) == ReleaseJob(old(Snapshot()), id, now)
    {
      hide QueueInv;
      ReleaseKeepsInv(Snapshot(), id, now);
      if id >= |rows| { return Err(NotFoundError); }
      r := TransitionJob(rows[id], rows[id].(claimedBy := None, claimedAt := None), Pending, now);
      if r.Ok? { rows := rows[id := r.value]; }
    }

    method GetJob(id: Id) returns (r: Result<Job, Error>)
      ensures r == if id < |rows| then Ok(rows[id]) else Err(NotFoundError)
    {
      r := if id < |rows| then Ok(rows[id]) else Err(NotFoundError);
    }
  }

  // ---------------------------------------------------------------------------------------------
  // Every operation keeps the invariant
  // ---------------------------------------------------------------------------------------------

  lemma SubmitKeepsInv(q: Queue, s: Submission, now: Time)
    requires QueueInv(q)
    ensures QueueInv(Submit(q, s, now).0)
  {
  }

  /** New rows that satisfy the row invariant and keep what was submitted keep the queue invariant. */
  lemma RowsKeepInv(q: Queue, rows: seq<Job>)
    requires QueueInv(q) && |rows| == |q.rows|
    requires forall id: Id :: id < |rows| ==> RowInv(rows[id]) && rows[id].what == q.rows[id].what
    ensures QueueInv(q.(rows := rows))
  {
  }

  lemma RecoverKeepsInv(q: Queue, threshold: Time, now: Time)
    requires QueueInv(q)
    ensures QueueInv(Recover(q, threshold, now))
  {
    RowsKeepInv(q, RecoverRows(q.rows, threshold, now, |q.rows|));
  }

  lemma ClaimKeepsInv(q: Queue, limit: int, worker: string, now: Time)
    requires QueueInv(q)
    ensures QueueInv(ClaimNext(q, limit, worker, now))
  {
    if limit > 0 {
      RecoverKeepsInv(q, STALE_THRESHOLD, now);
      var r := Recover(q, STALE_THRESHOLD, now);
      var ids := ClaimedIds(q, limit, now);
      ChosenAreClaimable(r.rows, limit);
      ClaimRowsKeepInv(r, ids, worker, now);
    }
  }

  lemma ClaimRowsKeepInv(q: Queue, ids: seq<Id>, worker: string, now: Time)
    requires QueueInv(q)
    requires forall i :: 0 <= i < |ids| ==>
      ids[i] < |q.rows| && (q.rows[ids[i]].status == Pending || q.rows[ids[i]].status == FailedRetryable)
    ensures QueueInv(q.(rows := ClaimRows(q.rows, ids, worker, now)))
  {
    RowsKeepInv(q, ClaimRows(q.rows, ids, worker, now));
  }

  lemma UpdateKeepsInv(q: Queue, id: Id, changed: Job, to: Status, now: Time)
    requires QueueInv(q)
    requires id < |q.rows| && Allowed(q.rows[id].status, to) ==>
               changed.what == q.rows[id].what && RowInv(changed.(status := to, updatedAt := now))
    ensures QueueInv(Update(q, id, changed, to, now).0)
  {
    RowsKeepInv(q, Update(q, id, changed, to, now).0.rows);
  }

  lemma StartKeepsInv(q: Queue, id: Id, now: Time)
    requires QueueInv(q)
    ensures QueueInv(StartAttempt(q, id, now).0)
  {
    var job := RowAt(q, id);
    UpdateKeepsInv(q, id, job.(attemptCount := job.attemptCount + 1), InProgress, now);
  }

  lemma FinishKeepsInv(q: Queue, id: Id, invocation: Id, now: Time)
    requires QueueInv(q)
    ensures QueueInv(FinishJob(q, id, invocation, now).0)
  {
    UpdateKeepsInv(q, id, RowAt(q, id).(aiInvocationId := Some(invocation)), Succeeded, now);
  }

  lemma FailKeepsInv(q: Queue, id: Id, error: string, retryable: bool, now: Time)
    requires QueueInv(q)
    ensures QueueInv(FailJob(q, id, error, retryable, now).0)
  {
    var job := RowAt(q, id);
    UpdateKeepsInv(q, id, job.(lastError := Some(Reported(error))), FailureTarget(job, retryable), now);
  }

  lemma ReleaseKeepsInv(q: Queue, id: Id, now: Time)
    requires QueueInv(q)
    ensures QueueInv(ReleaseJob(q, id, now).0)
  {
    UpdateKeepsInv(q, id, RowAt(q, id).(claimedBy := None, claimedAt := None), Pending, now);
  }
}
