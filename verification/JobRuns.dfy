/** Whole runs of the job queue: retry budget, termination measure and bounded waiting. */
module JobRuns {
  import opened Common
  import opened Sorting
  import opened Jobs

  /** One repository call, by any worker. */
  datatype Op =
    | SubmitOp(s: Submission, now: Time)
    | ClaimOp(limit: int, worker: string, now: Time)
    | RecoverOp(threshold: Time, now: Time)
    | StartOp(id: Id, now: Time)
    | SucceedOp(id: Id, invocation: Id, now: Time)
    | FailOp(id: Id, error: string, retryable: bool, now: Time)
    | ReleaseOp(id: Id, now: Time)

  function Step(q: Queue, op: Op): Queue {
    match op
    case SubmitOp(s, now) => Submit(q, s, now).0
    case ClaimOp(limit, worker, now) => ClaimNext(q, limit, worker, now)
    case RecoverOp(threshold, now) => Recover(q, threshold, now)
    case StartOp(id, now) => StartAttempt(q, id, now).0
    case SucceedOp(id, invocation, now) => FinishJob(q, id, invocation, now).0
    case FailOp(id, error, retryable, now) => FailJob(q, id, error, retryable, now).0
    case ReleaseOp(id, now) => ReleaseJob(q, id, now).0
  }

  function Run(q: Queue, ops: seq<Op>): Queue
    decreases |ops|
  {
    if ops == [] then q else Run(Step(q, ops[0]), ops[1..])
  }

  lemma StepKeepsInv(q: Queue, op: Op)
    requires QueueInv(q)
    ensures QueueInv(Step(q, op))
  {
    match op
    case SubmitOp(s, now) => SubmitKeepsInv(q, s, now);
    case ClaimOp(limit, worker, now) => ClaimKeepsInv(q, limit, worker, now);
    case RecoverOp(threshold, now) => RecoverKeepsInv(q, threshold, now);
    case StartOp(id, now) => StartKeepsInv(q, id, now);
    case SucceedOp(id, invocation, now) => FinishKeepsInv(q, id, invocation, now);
    case FailOp(id, error, retryable, now) => FailKeepsInv(q, id, error, retryable, now);
    case ReleaseOp(id, now) => ReleaseKeepsInv(q, id, now);
  }

  /** In every run each idempotency key names exactly one job, and every row satisfies `RowInv`. */
  lemma {:induction false} RunKeepsInv(q: Queue, ops: seq<Op>)
    requires QueueInv(q)
    ensures QueueInv(Run(q, ops))
    decreases |ops|
  {
    if ops != [] {
      StepKeepsInv(q, ops[0]);
      RunKeepsInv(Step(q, ops[0]), ops[1..]);
    }
  }

  // ---------------------------------------------------------------------------------------------
  // How one call moves one row
  // ---------------------------------------------------------------------------------------------

  predicate Linked(a: Status, b: Status) { a == b || Allowed(a, b) }

  /** One table edge, or the two edges of a claim that first recovers a stale running row. */
  predicate Reaches(a: Status, b: Status) {
    Linked(a, b) || (Allowed(a, FailedRetryable) && Allowed(FailedRetryable, b))
  }

  /** One when the call moves row `id` into IN_PROGRESS. */
  function Starts(q: Queue, op: Op, id: Id): nat {
    if op.StartOp? && op.id == id && id < |q.rows| && q.rows[id].status == Claimed then 1 else 0
  }

  lemma ClaimMovesRow(q: Queue, limit: int, worker: string, now: Time, id: Id)
    requires id < |q.rows|
    ensures |ClaimNext(q, limit, worker, now).rows| == |q.rows|
    ensures var a, b := q.rows[id], ClaimNext(q, limit, worker, now).rows[id];
      && b.what == a.what && b.createdAt == a.createdAt && b.attemptCount == a.attemptCount
      && Reaches(a.status, b.status) && (Terminal(a.status) ==> b == a)
  {
    hide Chosen;
    if limit > 0 {
      var r := Recover(q, STALE_THRESHOLD, now);
      ChosenAreClaimable(r.rows, limit);
      var ids := ClaimedIds(q, limit, now);
      if id in ids {
        var i :| 0 <= i < |ids| && ids[i] == id;
        assert r.rows[ids[i]].status == Pending || r.rows[ids[i]].status == FailedRetryable;
      }
    }
  }

  /**
   * No call loses a row or rewrites what was submitted; the status moves along the transition table;
   * the attempt counter grows exactly when the row enters IN_PROGRESS; finished rows never change.
   */
  lemma StepMovesRow(q: Queue, op: Op, id: Id)
    requires id < |q.rows|
    ensures |q.rows| <= |Step(q, op).rows| <= |q.rows| + 1
    ensures var a, b := q.rows[id], Step(q, op).rows[id];
      && b.what == a.what && b.createdAt == a.createdAt
      && Reaches(a.status, b.status)
      && b.attemptCount == a.attemptCount + Starts(q, op, id)
      && (Terminal(a.status) ==> b == a)
  {
    if op.ClaimOp? { ClaimMovesRow(q, op.limit, op.worker, op.now, id); }
  }

  function AttemptsAt(q: Queue, id: Id): int {
    if id < |q.rows| then q.rows[id].attemptCount else 0
  }

  /** How many times job `id` enters IN_PROGRESS during a run. */
  function Dispatches(q: Queue, ops: seq<Op>, id: Id): nat
    decreases |ops|
  {
    if ops == [] then 0 else Starts(q, ops[0], id) + Dispatches(Step(q, ops[0]), ops[1..], id)
  }

  lemma StepCountsAttempts(q: Queue, op: Op, id: Id)
    requires QueueInv(q)
    ensures AttemptsAt(Step(q, op), id) == AttemptsAt(q, id) + Starts(q, op, id)
  {
    if id < |q.rows| {
      StepMovesRow(q, op, id);
    } else if 0 < |q.rows| {
      StepMovesRow(q, op, 0);
    }
  }

  /** The attempt counter counts the entries into IN_PROGRESS, whatever fails or is recovered. */
  lemma {:induction false} AttemptsCountDispatches(q: Queue, ops: seq<Op>, id: Id)
    requires QueueInv(q)
    ensures AttemptsAt(Run(q, ops), id) == AttemptsAt(q, id) + Dispatches(q, ops, id)
    decreases |ops|
  {
    if ops != [] {
      StepKeepsInv(q, ops[0]);
      StepCountsAttempts(q, ops[0], id);
      AttemptsCountDispatches(Step(q, ops[0]), ops[1..], id);
    }
  }

  /** From an empty queue, a job is dispatched exactly `attempt_count` times, never over its budget. */
  lemma RetryBudget(ops: seq<Op>, id: Id)
    requires id < |Run(EMPTY, ops).rows|
    ensures var job := Run(EMPTY, ops).rows[id];
      Dispatches(EMPTY, ops, id) == job.attemptCount <= job.what.maxAttempts
  {
    AttemptsCountDispatches(EMPTY, ops, id);
    RunKeepsInv(EMPTY, ops);
  }

  /** A job that is SUCCEEDED or FAILED_TERMINAL stays as it is for ever. */
  lemma {:induction false} FinishedForEver(q: Queue, ops: seq<Op>, id: Id)
    requires QueueInv(q) && id < |q.rows| && (q.rows[id].status == Succeeded || q.rows[id].status == FailedTerminal)
    ensures id < |Run(q, ops).rows| && Run(q, ops).rows[id] == q.rows[id]
    decreases |ops|
  {
    if ops != [] {
      StepKeepsInv(q, ops[0]);
      StepMovesRow(q, ops[0], id);
      FinishedForEver(Step(q, ops[0]), ops[1..], id);
    }
  }

  // ---------------------------------------------------------------------------------------------
  // Sums
  // ---------------------------------------------------------------------------------------------

  function Sum(ws: seq<int>): int {
    if ws == [] then 0 else Sum(ws[..|ws| - 1]) + ws[|ws| - 1]
  }

  lemma {:induction false} SumLeq(a: seq<int>, b: seq<int>)
    requires |a| == |b| && forall i :: 0 <= i < |a| ==> a[i] <= b[i]
    ensures Sum(a) <= Sum(b)
  {
    if a != [] { SumLeq(a[..|a| - 1], b[..|a| - 1]); }
  }

  lemma {:induction false} SumLess(a: seq<int>, b: seq<int>, k: nat)
    requires |a| == |b| && forall i :: 0 <= i < |a| ==> a[i] <= b[i]
    requires k < |a| && a[k] < b[k]
    ensures Sum(a) < Sum(b)
  {
    var n := |a| - 1;
    if k == n { SumLeq(a[..n], b[..n]); } else { SumLess(a[..n], b[..n], k); }
  }

  lemma {:induction false} SumNonNegative(ws: seq<int>)
    requires forall i :: 0 <= i < |ws| ==> ws[i] >= 0
    ensures Sum(ws) >= 0
  {
    if ws != [] { SumNonNegative(ws[..|ws| - 1]); }
  }

  // ---------------------------------------------------------------------------------------------
  // Termination measure
  // ---------------------------------------------------------------------------------------------

  function Weight(job: Job): int {
    if Terminal(job.status) then 0 else job.what.maxAttempts - job.attemptCount + 1
  }

  function Weights(rows: seq<Job>): seq<int> {
    seq(|rows|, i requires 0 <= i < |rows| => Weight(rows[i]))
  }

  /** The sum over unfinished jobs of (max_attempts - attempt_count + 1). */
  function Work(q: Queue): int {
    Sum(Weights(q.rows))
  }

  lemma StepLowersWeight(q: Queue, op: Op, id: Id)
    requires QueueInv(q) && id < |q.rows|
    ensures |q.rows| <= |Step(q, op).rows|
    ensures 0 <= Weight(Step(q, op).rows[id]) <= Weight(q.rows[id]) - Starts(q, op, id)
  {
    StepMovesRow(q, op, id);
    StepKeepsInv(q, op);
  }

  lemma OnlySubmitGrows(q: Queue, op: Op)
    requires !op.SubmitOp?
    ensures |Step(q, op).rows| == |q.rows|
  {
  }

  /** No call but a submission raises the measure, and every dispatch strictly lowers it. */
  lemma StepLowersWork(q: Queue, op: Op)
    requires QueueInv(q) && !op.SubmitOp?
    ensures 0 <= Work(Step(q, op)) <= Work(q)
    ensures forall id :: Starts(q, op, id) == 1 ==> Work(Step(q, op)) < Work(q)
  {
    var a, b := Weights(Step(q, op).rows), Weights(q.rows);
    OnlySubmitGrows(q, op);
    forall i | 0 <= i < |a| ensures 0 <= a[i] <= b[i] { StepLowersWeight(q, op, i); }
    SumLeq(a, b);
    SumNonNegative(a);
    if op.StartOp? && Starts(q, op, op.id) == 1 {
      StepLowersWeight(q, op, op.id);
      SumLess(a, b, op.id);
    }
  }

  predicate NoSubmissions(ops: seq<Op>) {
    forall i :: 0 <= i < |ops| ==> !ops[i].SubmitOp?
  }

  /** The number of dispatches of any job in a run. */
  function AllDispatches(q: Queue, ops: seq<Op>): nat
    decreases |ops|
  {
    if ops == [] then 0
    else (if ops[0].StartOp? then Starts(q, ops[0], ops[0].id) else 0) + AllDispatches(Step(q, ops[0]), ops[1..])
  }

  /** Without new submissions the measure bounds how many more dispatches can ever happen. */
  lemma {:induction false} WorkBoundsDispatches(q: Queue, ops: seq<Op>)
    requires QueueInv(q) && NoSubmissions(ops)
    ensures 0 <= Work(Run(q, ops)) <= Work(q) - AllDispatches(q, ops)
    decreases |ops|
  {
    if ops == [] {
      forall i | 0 <= i < |q.rows| ensures Weights(q.rows)[i] >= 0 { assert RowInv(q.rows[i]); }
      SumNonNegative(Weights(q.rows));
    } else {
      StepKeepsInv(q, ops[0]);
      StepLowersWork(q, ops[0]);
      WorkBoundsDispatches(Step(q, ops[0]), ops[1..]);
    }
  }

  /**
   * A worker round that claims a job and starts it strictly lowers the measure, whatever happens
   * afterwards: the worker may die right after `mark_in_progress`, or `rest` may hold any calls.
   */
  lemma RoundLowersWork(q: Queue, limit: int, worker: string, now: Time, later: Time, rest: seq<Op>)
    requires QueueInv(q) && NoSubmissions(rest)
    requires ClaimedIds(q, limit, now) != []
    ensures var first := ClaimedIds(q, limit, now)[0];
      Work(Run(Step(Step(q, ClaimOp(limit, worker, now)), StartOp(first, later)), rest)) < Work(q)
  {
    var claim := ClaimOp(limit, worker, now);
    var start := StartOp(ClaimedIds(q, limit, now)[0], later);
    ChosenAreClaimable(Recover(q, STALE_THRESHOLD, now).rows, limit);
    StepKeepsInv(q, claim);
    StepLowersWork(q, claim);
    var q1 := Step(q, claim);
    assert Starts(q1, start, start.id) == 1;
    StepKeepsInv(q1, start);
    StepLowersWork(q1, start);
    WorkBoundsDispatches(Step(q1, start), rest);
  }

  // ---------------------------------------------------------------------------------------------
  // Bounded waiting
  // ---------------------------------------------------------------------------------------------

  function OlderWeight(rows: seq<Job>, i: Id, j: Id): int {
    if i < |rows| && Older(rows, i, j) && !Terminal(rows[i].status)
    then rows[i].what.maxAttempts - rows[i].attemptCount else 0
  }

  function OlderWeights(rows: seq<Job>, j: Id): seq<int> {
    seq(|rows|, i requires 0 <= i < |rows| => OlderWeight(rows, i, j))
  }

  /** The sum of the remaining attempts of all unfinished jobs older than `j`. */
  function OlderWork(q: Queue, j: Id): int {
    Sum(OlderWeights(q.rows, j))
  }

  predicate Takes(q: Queue, op: Op, j: Id) {
    op.ClaimOp? && j in ClaimedIds(q, op.limit, op.now)
  }

  /** A claimable row that a call does not take is left exactly as it was. */
  lemma UntakenUnchanged(q: Queue, op: Op, j: Id)
    requires j < |q.rows| && (q.rows[j].status == Pending || q.rows[j].status == FailedRetryable) && !Takes(q, op, j)
    ensures j < |Step(q, op).rows| && Step(q, op).rows[j] == q.rows[j]
  {
  }

  /** The clock does not run backwards past the creation of job `j`. */
  predicate ClockAfter(q: Queue, op: Op, j: Id) {
    j < |q.rows| && (op.SubmitOp? ==> op.now >= q.rows[j].createdAt)
  }

  lemma StepOlderWeight(q: Queue, op: Op, i: Id, j: Id)
    requires QueueInv(q) && i < |q.rows| && j < |q.rows|
    ensures |q.rows| <= |Step(q, op).rows|
    ensures 0 <= OlderWeight(Step(q, op).rows, i, j) <= OlderWeight(q.rows, i, j)
    ensures Older(q.rows, i, j) && Starts(q, op, i) == 1 ==>
              OlderWeight(Step(q, op).rows, i, j) < OlderWeight(q.rows, i, j)
  {
    StepMovesRow(q, op, i);
    StepMovesRow(q, op, j);
    StepKeepsInv(q, op);
    assert RowInv(q.rows[i]) && RowInv(Step(q, op).rows[i]);
  }

  /** No call raises the older work of `j`; dispatching an older job lowers it. */
  lemma StepLowersOlderWork(q: Queue, op: Op, j: Id)
    requires QueueInv(q) && ClockAfter(q, op, j)
    ensures 0 <= OlderWork(Step(q, op), j) <= OlderWork(q, j)
    ensures forall i: Id :: i < |q.rows| && Older(q.rows, i, j) && Starts(q, op, i) == 1 ==>
              OlderWork(Step(q, op), j) < OlderWork(q, j)
  {
    var a, b := OlderWeights(Step(q, op).rows, j), OlderWeights(q.rows, j);
    var n := |q.rows|;
    forall i | 0 <= i < n ensures |a| >= n && 0 <= a[i] <= b[i] { StepOlderWeight(q, op, i, j); }
    assert n <= |a| <= n + 1 by { StepMovesRow(q, op, j); }
    SumLeq(a[..n], b);
    SumNonNegative(a[..n]);
    if |a| == n + 1 {
      assert a[n] == 0 by { SubmittedIsYounger(q, op, j); }
      assert a[..|a| - 1] == a[..n];
    } else {
      assert a == a[..n];
    }
    if op.StartOp? && op.id < n && Older(q.rows, op.id, j) && Starts(q, op, op.id) == 1 {
      StepOlderWeight(q, op, op.id, j);
      SumLess(a[..n], b, op.id);
    }
  }

  lemma SubmittedIsYounger(q: Queue, op: Op, j: Id)
    requires ClockAfter(q, op, j) && |Step(q, op).rows| == |q.rows| + 1
    ensures !Older(Step(q, op).rows, |q.rows|, j)
  {
    if !op.SubmitOp? { OnlySubmitGrows(q, op); }
  }

  /** A worker round: a claim, followed by whatever calls happen until the next round. */
  datatype Round = Round(limit: int, worker: string, now: Time, rest: seq<Op>)

  function RoundOps(r: Round): seq<Op> {
    [ClaimOp(r.limit, r.worker, r.now)] + r.rest
  }

  ghost predicate NeverTaken(q: Queue, ops: seq<Op>, j: Id)
    decreases |ops|
  {
    ops == [] || (!Takes(q, ops[0], j) && NeverTaken(Step(q, ops[0]), ops[1..], j))
  }

  ghost predicate ClocksAfter(q: Queue, ops: seq<Op>, j: Id)
    decreases |ops|
  {
    ops == [] || (ClockAfter(q, ops[0], j) && ClocksAfter(Step(q, ops[0]), ops[1..], j))
  }

  /** The round dispatches at least one of the jobs it claimed; it may then die or do anything else. */
  ghost predicate Productive(q: Queue, r: Round) {
    && r.limit >= 1
    && (ClaimedIds(q, r.limit, r.now) != [] ==>
          exists id :: id in ClaimedIds(q, r.limit, r.now) &&
                       Dispatches(Step(q, ClaimOp(r.limit, r.worker, r.now)), r.rest, id) >= 1)
  }

  ghost predicate Waits(q: Queue, rounds: seq<Round>, j: Id)
    decreases |rounds|
  {
    rounds == [] ||
    (&& Productive(q, rounds[0])
     && ClocksAfter(q, RoundOps(rounds[0]), j)
     && NeverTaken(q, RoundOps(rounds[0]), j)
     && Waits(Run(q, RoundOps(rounds[0])), rounds[1..], j))
  }

  /** Calls that never take the claimable job `j` keep its row, and never raise its older work. */
  lemma {:induction false} WaitingRun(q: Queue, ops: seq<Op>, j: Id)
    requires QueueInv(q) && j < |q.rows| && (q.rows[j].status == Pending || q.rows[j].status == FailedRetryable)
    requires ClocksAfter(q, ops, j) && NeverTaken(q, ops, j)
    ensures QueueInv(Run(q, ops))
    ensures j < |Run(q, ops).rows| && Run(q, ops).rows[j] == q.rows[j]
    ensures 0 <= OlderWork(Run(q, ops), j) <= OlderWork(q, j)
    decreases |ops|
  {
    if ops == [] {
      forall i | 0 <= i < |q.rows| ensures OlderWeights(q.rows, j)[i] >= 0 { assert RowInv(q.rows[i]); }
      SumNonNegative(OlderWeights(q.rows, j));
    } else {
      StepKeepsInv(q, ops[0]);
      UntakenUnchanged(q, ops[0], j);
      StepLowersOlderWork(q, ops[0], j);
      WaitingRun(Step(q, ops[0]), ops[1..], j);
    }
  }

  /** If such calls dispatch an older job, its older work strictly drops. */
  lemma {:induction false} WaitingRunProgress(q: Queue, ops: seq<Op>, j: Id, i: Id)
    requires QueueInv(q) && j < |q.rows| && (q.rows[j].status == Pending || q.rows[j].status == FailedRetryable)
    requires ClocksAfter(q, ops, j) && NeverTaken(q, ops, j)
    requires i < |q.rows| && Older(q.rows, i, j) && Dispatches(q, ops, i) >= 1
    ensures OlderWork(Run(q, ops), j) < OlderWork(q, j)
    decreases |ops|
  {
    var q1 := Step(q, ops[0]);
    StepKeepsInv(q, ops[0]);
    UntakenUnchanged(q, ops[0], j);
    StepLowersOlderWork(q, ops[0], j);
    if Starts(q, ops[0], i) == 1 {
      WaitingRun(q1, ops[1..], j);
    } else {
      StepMovesRow(q, ops[0], i);
      WaitingRunProgress(q1, ops[1..], j, i);
    }
  }

  /** A productive round that passes `j` over dispatches a job older than `j`. */
  lemma PassedOverRound(q: Queue, r: Round, j: Id)
    requires QueueInv(q) && j < |q.rows| && (q.rows[j].status == Pending || q.rows[j].status == FailedRetryable)
    requires Productive(q, r) && ClocksAfter(q, RoundOps(r), j) && NeverTaken(q, RoundOps(r), j)
    ensures OlderWork(Run(q, RoundOps(r)), j) < OlderWork(q, j)
  {
    var claim := ClaimOp(r.limit, r.worker, r.now);
    var q1 := Step(q, claim);
    assert RoundOps(r)[0] == claim && RoundOps(r)[1..] == r.rest;
    var rows := Recover(q, STALE_THRESHOLD, r.now).rows;
    var chosen := ClaimedIds(q, r.limit, r.now);
    ChosenAreOldest(rows, r.limit);
    UntakenUnchanged(q, claim, j);
    assert j in AvailableIds(rows);
    var id :| id in chosen && Dispatches(q1, r.rest, id) >= 1;
    assert Older(rows, id, j);
    StepKeepsInv(q, claim);
    StepMovesRow(q, claim, id);
    StepLowersOlderWork(q, claim, j);
    WaitingRunProgress(q1, r.rest, j, id);
  }

  /**
   * A PENDING or FAILED_RETRYABLE job is passed over in at most as many worker rounds as its older unfinished jobs
   * have attempts left, even though retried jobs keep their old place in the queue.
   */
  lemma {:induction false} BoundedWaiting(q: Queue, rounds: seq<Round>, j: Id)
    requires QueueInv(q) && j < |q.rows| && (q.rows[j].status == Pending || q.rows[j].status == FailedRetryable)
    requires Waits(q, rounds, j)
    ensures |rounds| <= OlderWork(q, j)
    decreases |rounds|
  {
    if rounds == [] {
      WaitingRun(q, [], j);
    } else {
      PassedOverRound(q, rounds[0], j);
      WaitingRun(q, RoundOps(rounds[0]), j);
      BoundedWaiting(Run(q, RoundOps(rounds[0])), rounds[1..], j);
    }
  }
}
