/** The overflow worker (scripts/process_background_job_overflow.py), which ties queue and ledger. */
module Worker {
  import opened Common
  import opened Audit
  import opened Jobs
  import opened JobRuns
  import Invocations
  import Lifecycle

  /** Everything the worker shares with others: the queue, the ledger and the audit log. */
  datatype Shop = Shop(queue: Queue, ledger: Invocations.Ledger, log: seq<Event>)

  datatype Outcome =
    | JobSucceeded(invocation: Id)
    | RetryableConflict
    | TerminalDefect
    | RetryableFailure
    | TerminalFailure
    | Crashed

  predicate IsRetryable(code: Option<string>) {
    code in {Some("LITELLM_TRANSPORT_ERROR"), Some("LITELLM_TIMEOUT"), Some("LITELLM_RATE_LIMITED")}
  }

  function CallOf(s: Submission): Lifecycle.Call {
    Lifecycle.Call(s.taskId, s.taskVersion, s.inputReferences, s.actorType, s.actorId, s.correlationId,
                   Some(s.capabilityAlias), s.inferenceBackend)
  }

  /** The idempotency key under which the script submits one piece of evidence for one task. */
  function KeyOf(taskId: string, version: string, evidenceId: string): string {
    taskId + ":" + version + ":" + evidenceId
  }

  lemma FirstChar(a: string, x: string)
    requires ':' !in a
    ensures (a + ":" + x)[0] == ':' <==> a == ""
  {
    if a != "" { assert (a + ":" + x)[0] == a[0]; }
  }

  lemma {:induction false} ColonSplitsOnce(a: string, x: string, b: string, y: string)
    requires ':' !in a && ':' !in b && a + ":" + x == b + ":" + y
    ensures a == b && x == y
  {
    FirstChar(a, x);
    FirstChar(b, y);
    if a == "" {
      assert (a + ":" + x)[1..] == x && (b + ":" + y)[1..] == y;
    } else {
      assert (a + ":" + x)[1..] == a[1..] + ":" + x && (b + ":" + y)[1..] == b[1..] + ":" + y;
      ColonSplitsOnce(a[1..], x, b[1..], y);
      assert a[0] == (a + ":" + x)[0] == (b + ":" + y)[0] == b[0];
      assert a == [a[0]] + a[1..] && b == [b[0]] + b[1..];
    }
  }

  /** With colon-free task names and versions, a key names one manifest entry only. */
  lemma KeyIdentifiesEntry(t1: string, v1: string, e1: string, t2: string, v2: string, e2: string)
    requires ':' !in t1 && ':' !in v1 && ':' !in t2 && ':' !in v2
    ensures KeyOf(t1, v1, e1) == KeyOf(t2, v2, e2) <==> t1 == t2 && v1 == v2 && e1 == e2
  {
    if KeyOf(t1, v1, e1) == KeyOf(t2, v2, e2) {
      assert KeyOf(t1, v1, e1) == t1 + ":" + (v1 + ":" + e1);
      assert KeyOf(t2, v2, e2) == t2 + ":" + (v2 + ":" + e2);
      ColonSplitsOnce(t1, v1 + ":" + e1, t2, v2 + ":" + e2);
      ColonSplitsOnce(v1, e1, v2, e2);
    }
  }

  // ---------------------------------------------------------------------------------------------
  // Other workers, at work on the same queue while a provider call is outstanding
  // ---------------------------------------------------------------------------------------------

  function OpEvents(q: Queue, op: Op): seq<Event> {
    match op
    case ClaimOp(limit, _, now) =>
      if limit <= 0 then [] else RecoveryEvents(q.rows, Jobs.STALE_THRESHOLD, now, |q.rows|)
    case RecoverOp(threshold, now) => RecoveryEvents(q.rows, threshold, now, |q.rows|)
    case _ => []
  }

  function OpsEvents(q: Queue, ops: seq<Op>): seq<Event>
    decreases |ops|
  {
    if ops == [] then [] else OpEvents(q, ops[0]) + OpsEvents(Step(q, ops[0]), ops[1..])
  }

  method OtherWorker(jobs: BackgroundJobRepository, op: Op)
    requires jobs.Valid()
    modifies jobs, jobs.audit
    ensures jobs.Valid()
    ensures jobs.Snapshot() == Step(old(jobs.Snapshot()), op)
    ensures jobs.audit.events == old(jobs.audit.events) + OpEvents(old(jobs.Snapshot()), op)
  {
    match op {
      case SubmitOp(s, now) => var _ := jobs.SubmitJob(s, now);
      case ClaimOp(limit, worker, now) => var _ := jobs.ClaimNextPending(limit, worker, now);
      case RecoverOp(threshold, now) => var _ := jobs.RecoverStaleClaims(threshold, now);
      case StartOp(id, now) => var _ := jobs.MarkInProgress(id, now);
      case SucceedOp(id, invocation, now) => var _ := jobs.MarkSucceeded(id, invocation, now);
      case FailOp(id, error, retryable, now) => var _ := jobs.MarkFailed(id, error, retryable, now);
      case ReleaseOp(id, now) => var _ := jobs.ReleaseClaim(id, now);
    }
  }

  method OtherWorkers(jobs: BackgroundJobRepository, ops: seq<Op>)
    requires jobs.Valid()
    modifies jobs, jobs.audit
    ensures jobs.Valid()
    ensures jobs.Snapshot() == Run(old(jobs.Snapshot()), ops)
    ensures jobs.audit.events == old(jobs.audit.events) + OpsEvents(old(jobs.Snapshot()), ops)
    decreases |ops|
  {
    hide Step, OpEvents, QueueInv;
    if ops != [] {
      ghost var q, log := jobs.Snapshot(), jobs.audit.events;
      OtherWorker(jobs, ops[0]);
      ghost var q1, first := jobs.Snapshot(), OpEvents(q, ops[0]);
      OtherWorkers(jobs, ops[1..]);
      assert (log + first) + OpsEvents(q1, ops[1..]) == log + (first + OpsEvents(q1, ops[1..]));
    }
  }

  // ---------------------------------------------------------------------------------------------
  // One job
  // ---------------------------------------------------------------------------------------------

  /** What the outside world does while one job is processed. */
  datatype JobEnv = JobEnv(gateway: Lifecycle.Env, others: seq<Op>, startedAt: Time, closedAt: Time)

  function ErrorText(i: Invocations.Invocation): string {
    if i.outcome.errorCode.Some? then i.outcome.errorCode.value
    else "AI_INVOCATION_" + Invocations.StatusText(i.status)
  }

  /** How the gateway's answer is classified; `Crashed` when the exception is not caught. */
  function Classify(l: Invocations.Ledger, result: Result<Id, Error>): Outcome {
    match result
    case Err(ActiveInvocationConflict) => RetryableConflict
    case Err(ValidationError) => TerminalDefect
    case Err(NotFoundError) => TerminalDefect
    case Err(InvalidStateTransition) => Crashed
    case Ok(id) =>
      if id >= |l.rows| then Crashed
      else if l.rows[id].status == Invocations.Succeeded then JobSucceeded(id)
      else if IsRetryable(l.rows[id].outcome.errorCode) then RetryableFailure
      else TerminalFailure
  }

  /** The queue call that closes the attempt. */
  function ClosingOps(l: Invocations.Ledger, result: Result<Id, Error>, job: Id, now: Time): seq<Op> {
    match Classify(l, result)
    case JobSucceeded(id) => [SucceedOp(job, id, now)]
    case RetryableConflict => [FailOp(job, "ACTIVE_INVOCATION_CONFLICT", true, now)]
    case TerminalDefect => [FailOp(job, "DEFECT", false, now)]
    case RetryableFailure => [FailOp(job, ErrorText(l.rows[result.value]), true, now)]
    case TerminalFailure => [FailOp(job, ErrorText(l.rows[result.value]), false, now)]
    case Crashed => []
  }

  /** The gateway call made for a job that has just been started. */
  function Gateway(s: Shop, job: Id, env: JobEnv): (Lifecycle.World, Result<Id, Error>) {
    Lifecycle.Background(Lifecycle.World(s.ledger, s.log), CallOf(RowAt(s.queue, job).what), env.gateway)
  }

  /** All queue calls made while one job is processed, by this worker and by others. */
  function JobOps(s: Shop, job: Id, env: JobEnv): seq<Op> {
    if Starts(s.queue, StartOp(job, env.startedAt), job) == 0 then [StartOp(job, env.startedAt)]
    else
      var (w, result) := Gateway(s, job, env);
      [StartOp(job, env.startedAt)] + (env.others + ClosingOps(w.ledger, result, job, env.closedAt))
  }

  function ProcessOne(s: Shop, job: Id, env: JobEnv): (Shop, Outcome) {
    if Starts(s.queue, StartOp(job, env.startedAt), job) == 0 then (s, Crashed)
    else
      var q1 := Step(s.queue, StartOp(job, env.startedAt));
      var (w, result) := Gateway(s, job, env);
      var q2 := Run(q1, env.others);
      var closing := ClosingOps(w.ledger, result, job, env.closedAt);
      var q3 := Run(q2, closing);
      var log := w.log + OpsEvents(q1, env.others);
      // A closing call on a row that others have moved on raises and is not caught.
      if closing != [] && !(job < |q2.rows| && q2.rows[job].status == InProgress)
      then (Shop(q3, w.ledger, log), Crashed)
      else (Shop(q3, w.ledger, log), Classify(w.ledger, result))
  }

  /** The jobs of one claim, in order, until the worker is done or dies. */
  function ProcessAll(s: Shop, claimed: seq<Id>, envs: seq<JobEnv>): (Shop, seq<Outcome>)
    decreases |claimed|
  {
    if claimed == [] || envs == [] then (s, [])
    else
      var (s1, outcome) := ProcessOne(s, claimed[0], envs[0]);
      if outcome == Crashed then (s1, [Crashed])
      else
        var (s2, outcomes) := ProcessAll(s1, claimed[1..], envs[1..]);
        (s2, [outcome] + outcomes)
  }

  function Claimed(s: Shop, limit: int, worker: string, now: Time): Shop {
    Shop(ClaimNext(s.queue, limit, worker, now), s.ledger, s.log + OpEvents(s.queue, ClaimOp(limit, worker, now)))
  }

  /** One invocation of the script in its processing mode. */
  function RunProcess(s: Shop, limit: int, worker: string, now: Time, envs: seq<JobEnv>): (Shop, seq<Outcome>) {
    ProcessAll(Claimed(s, limit, worker, now), ClaimedIds(s.queue, limit, now), envs)
  }

  /** A closing call raises exactly when the row is not in progress. */
  lemma FinishRaisesIff(q: Queue, job: Id, invocation: Id, now: Time)
    ensures Run(q, [SucceedOp(job, invocation, now)]) == FinishJob(q, job, invocation, now).0
    ensures FinishJob(q, job, invocation, now).1.Ok? <==> job < |q.rows| && q.rows[job].status == InProgress
  {
    RunSingle(q, SucceedOp(job, invocation, now));
  }

  lemma FailRaisesIff(q: Queue, job: Id, error: string, retryable: bool, now: Time)
    ensures Run(q, [FailOp(job, error, retryable, now)]) == FailJob(q, job, error, retryable, now).0
    ensures FailJob(q, job, error, retryable, now).1.Ok? <==> job < |q.rows| && q.rows[job].status == InProgress
  {
    RunSingle(q, FailOp(job, error, retryable, now));
  }

  lemma RunSingle(q: Queue, op: Op)
    ensures Run(q, [op]) == Step(q, op)
  {
    assert [op][1..] == [];
  }

  method FinishOrCrash(jobs: BackgroundJobRepository, job: Id, invocation: Id, now: Time) returns (ok: bool)
    requires jobs.Valid()
    modifies jobs
    ensures jobs.Valid()
    ensures jobs.Snapshot() == Run(old(jobs.Snapshot()), [SucceedOp(job, invocation, now)])
    ensures ok <==> job < |old(jobs.rows)| && old(jobs.rows)[job].status == InProgress
  {
    FinishRaisesIff(jobs.Snapshot(), job, invocation, now);
    var updated := jobs.MarkSucceeded(job, invocation, now);
    ok := updated.Ok?;
  }

  method FailOrCrash(jobs: BackgroundJobRepository, job: Id, error: string, retryable: bool, now: Time) returns (ok: bool)
    requires jobs.Valid()
    modifies jobs
    ensures jobs.Valid()
    ensures jobs.Snapshot() == Run(old(jobs.Snapshot()), [FailOp(job, error, retryable, now)])
    ensures ok <==> job < |old(jobs.rows)| && old(jobs.rows)[job].status == InProgress
  {
    FailRaisesIff(jobs.Snapshot(), job, error, retryable, now);
    var updated := jobs.MarkFailed(job, error, retryable, now);
    ok := updated.Ok?;
  }

  /** Closes the attempt; an uncaught exception makes no call. */
  method CloseJob(jobs: BackgroundJobRepository, l: Invocations.Ledger, result: Result<Id, Error>, job: Id, now: Time)
    returns (outcome: Outcome)
    requires jobs.Valid()
    modifies jobs
    ensures jobs.Valid()
    ensures jobs.Snapshot() == Run(old(jobs.Snapshot()), ClosingOps(l, result, job, now))
    ensures outcome ==
            if ClosingOps(l, result, job, now) != [] && !(job < |old(jobs.rows)| && old(jobs.rows)[job].status == InProgress)
            then Crashed else Classify(l, result)
  {
    outcome := Classify(l, result);
    var ok := true;
    match outcome {
      case JobSucceeded(id) => ok := FinishOrCrash(jobs, job, id, now);
      case RetryableConflict => ok := FailOrCrash(jobs, job, "ACTIVE_INVOCATION_CONFLICT", true, now);
      case TerminalDefect => ok := FailOrCrash(jobs, job, "DEFECT", false, now);
      case RetryableFailure => ok := FailOrCrash(jobs, job, ErrorText(l.rows[result.value]), true, now);
      case TerminalFailure => ok := FailOrCrash(jobs, job, ErrorText(l.rows[result.value]), false, now);
      case Crashed =>
    }
    if !ok { outcome := Crashed; }
  }

  method ProcessJob(jobs: BackgroundJobRepository, repo: Invocations.InvocationRepository, job: Id, env: JobEnv)
    returns (outcome: Outcome)
    requires jobs.Valid() && repo.Valid() && jobs.audit == repo.audit
    modifies jobs, repo, repo.audit
    ensures jobs.Valid() && repo.Valid()
    ensures (Shop(jobs.Snapshot(), repo.Snapshot(), repo.audit.events), outcome) ==
            ProcessOne(Shop(old(jobs.Snapshot()), old(repo.Snapshot()), old(repo.audit.events)), job, env)
  {
    hide Lifecycle.Background, QueueInv, Invocations.LedgerInv, ClosingOps, Classify, Run, OpsEvents;
    var started := jobs.MarkInProgress(job, env.startedAt);
    if started.Err? { return Crashed; }
    var result := Lifecycle.RunBackgroundTask(repo, CallOf(started.value.what), env.gateway);
    OtherWorkers(jobs, env.others);
    outcome := CloseJob(jobs, Invocations.Ledger(repo.rows, repo.active), result, job, env.closedAt);
  }

  method ProcessJobs(jobs: BackgroundJobRepository, repo: Invocations.InvocationRepository, claimed: seq<Id>,
                     envs: seq<JobEnv>)
    returns (outcomes: seq<Outcome>)
    requires jobs.Valid() && repo.Valid() && jobs.audit == repo.audit
    modifies jobs, repo, repo.audit
    ensures jobs.Valid() && repo.Valid()
    ensures (Shop(jobs.Snapshot(), repo.Snapshot(), repo.audit.events), outcomes) ==
            ProcessAll(Shop(old(jobs.Snapshot()), old(repo.Snapshot()), old(repo.audit.events)), claimed, envs)
    decreases |claimed|
  {
    if claimed == [] || envs == [] { return []; }
    var outcome := ProcessJob(jobs, repo, claimed[0], envs[0]);
    if outcome == Crashed { return [Crashed]; }
    var rest := ProcessJobs(jobs, repo, claimed[1..], envs[1..]);
    outcomes := [outcome] + rest;
  }

  method RunOverflow(jobs: BackgroundJobRepository, repo: Invocations.InvocationRepository, limit: int, worker: string,
                     now: Time, envs: seq<JobEnv>)
    returns (outcomes: seq<Outcome>)
    requires jobs.Valid() && repo.Valid() && jobs.audit == repo.audit
    modifies jobs, repo, repo.audit
    ensures jobs.Valid() && repo.Valid()
    ensures (Shop(jobs.Snapshot(), repo.Snapshot(), repo.audit.events), outcomes) ==
            RunProcess(Shop(old(jobs.Snapshot()), old(repo.Snapshot()), old(repo.audit.events)), limit, worker, now, envs)
  {
    var claimed := jobs.ClaimNextPending(limit, worker, now);
    outcomes := ProcessJobs(jobs, repo, claimed, envs);
  }

  // ---------------------------------------------------------------------------------------------
  // What the provider's answer means for the job
  // ---------------------------------------------------------------------------------------------

  /** The provider errors that are worth another attempt. */
  predicate Transient(p: Lifecycle.Provider) {
    p.ProviderError? && (p.status == "TRANSPORT_ERROR" || p.status == "TIMEOUT" || p.status == "RATE_LIMITED")
  }

  lemma PrefixCancels(a: string, b: string)
    ensures "LITELLM_" + a == "LITELLM_" + b <==> a == b
  {
    assert ("LITELLM_" + a)[8..] == a && ("LITELLM_" + b)[8..] == b;
  }

  lemma ProviderCodeRetryable(status: string)
    ensures IsRetryable(Some("LITELLM_" + status)) <==> Transient(Lifecycle.ProviderError(status))
  {
    PrefixCancels(status, "TRANSPORT_ERROR");
    PrefixCancels(status, "TIMEOUT");
    PrefixCancels(status, "RATE_LIMITED");
    assert "LITELLM_" + "TRANSPORT_ERROR" == "LITELLM_TRANSPORT_ERROR";
    assert "LITELLM_" + "TIMEOUT" == "LITELLM_TIMEOUT";
    assert "LITELLM_" + "RATE_LIMITED" == "LITELLM_RATE_LIMITED";
  }

  lemma RejectionNotRetryable(reply: Lifecycle.Reply)
    ensures !IsRetryable(Some(Lifecycle.RejectionCode(reply))) && !IsRetryable(None)
  {
    assert Lifecycle.RejectionCode(reply)[0] == 'O';
    assert "LITELLM_TRANSPORT_ERROR"[0] == 'L' && "LITELLM_TIMEOUT"[0] == 'L' && "LITELLM_RATE_LIMITED"[0] == 'L';
  }

  lemma FinalCodeRetryable(env: Lifecycle.Env)
    ensures IsRetryable(Lifecycle.FinalOutcome(env).errorCode) <==> Transient(env.provider)
  {
    hide IsRetryable, Transient;
    match env.provider
    case ProviderError(status) => ProviderCodeRetryable(status);
    case ProviderOk =>
      RejectionNotRetryable(env.reply);
      assert !Transient(env.provider) by { OkIsNotTransient(); }
  }

  lemma OkIsNotTransient()
    ensures !Transient(Lifecycle.ProviderOk)
  {}

  /** How the gateway's answer is classified, in terms of what the provider said. */
  lemma AnswerClassified(w: Lifecycle.World, c: Lifecycle.Call, env: Lifecycle.Env)
    requires Invocations.LedgerInv(w.ledger) && Lifecycle.Background(w, c, env).1.Ok?
    ensures var (w', result) := Lifecycle.Background(w, c, env); var outcome := Classify(w'.ledger, result);
      outcome == if Lifecycle.OutputAccepted(env) then JobSucceeded(result.value)
                 else if Transient(env.provider) then RetryableFailure else TerminalFailure
  {
    hide Lifecycle.Background, Invocations.LedgerInv, Lifecycle.FinalOutcome, IsRetryable, Transient,
      Lifecycle.Told, Lifecycle.Chained, Lifecycle.OutputAccepted;
    var _, _ := Lifecycle.BackgroundReturns(w, c, env);
    Lifecycle.BackgroundTells(w, c, env);
    FinalCodeRetryable(env);
  }

  /** A failure that another attempt may cure: a conflicting invocation or a transient provider error. */
  predicate Curable(result: Result<Id, Error>, env: JobEnv) {
    result == Err(ActiveInvocationConflict) || (result.Ok? && Transient(env.gateway.provider))
  }

  lemma AnswerSetsStatus(s: Shop, job: Id, env: JobEnv)
    requires ShopInv(s) && Starts(s.queue, StartOp(job, env.startedAt), job) == 1 && env.others == []
    requires Gateway(s, job, env).1 != Err(InvalidStateTransition)
    ensures var (after, outcome) := ProcessOne(s, job, env); var result := Gateway(s, job, env).1;
      var accepted := result.Ok? && Lifecycle.OutputAccepted(env.gateway);
      && job < |after.queue.rows| && outcome != Crashed
      && after.queue.rows[job].attemptCount == s.queue.rows[job].attemptCount + 1
      && (after.queue.rows[job].status == Succeeded <==> accepted)
      && (after.queue.rows[job].status == FailedRetryable <==>
            !accepted && Curable(result, env)
            && after.queue.rows[job].attemptCount < s.queue.rows[job].what.maxAttempts)
      && (after.queue.rows[job].status == FailedTerminal <==>
            !accepted && (Curable(result, env) ==> after.queue.rows[job].attemptCount == s.queue.rows[job].what.maxAttempts))
  {
    hide Lifecycle.Background, Invocations.LedgerInv, Lifecycle.OutputAccepted, Transient, QueueInv, Agree;
    var (w, result) := Gateway(s, job, env);
    if result.Ok? { AnswerClassified(Lifecycle.World(s.ledger, s.log), CallOf(s.queue.rows[job].what), env.gateway); }
    AttemptWithinBudget(s.queue, job);
    var q1 := Step(s.queue, StartOp(job, env.startedAt));
    assert Run(q1, env.others) == q1;
    ClosingDecides(q1, w.ledger, result, job, env.closedAt);
  }

  /**
   * What an answer means for the job: undisturbed, one attempt is spent, and the job ends SUCCEEDED
   * exactly when the provider's output is JSON that matches the schema, is claimable again exactly
   * when the subject was busy or the provider failed in one of three transient ways and budget is
   * left, and is finished for good otherwise.
   */
  lemma AnswerDecidesJob(s: Shop, job: Id, env: JobEnv)
    requires ShopInv(s) && job < |s.queue.rows| && s.queue.rows[job].status == Jobs.Claimed && env.others == []
    requires Gateway(s, job, env).1 != Err(InvalidStateTransition)
    ensures var (after, outcome) := ProcessOne(s, job, env);
      var result, provider := Gateway(s, job, env).1, env.gateway.provider; var was := s.queue.rows[job];
      var accepted := result.Ok? && provider.ProviderOk? && env.gateway.reply.Json? && env.gateway.reply.matchesSchema;
      var curable := result == Err(ActiveInvocationConflict)
                     || (result.Ok? && provider.ProviderError?
                         && (provider.status == "TRANSPORT_ERROR" || provider.status == "TIMEOUT" || provider.status == "RATE_LIMITED"));
      && job < |after.queue.rows| && outcome != Crashed
      && after.queue.rows[job].attemptCount == was.attemptCount + 1
      && (after.queue.rows[job].status == Succeeded <==> accepted)
      && (after.queue.rows[job].status == FailedRetryable <==> curable && was.attemptCount + 1 < was.what.maxAttempts)
      && (after.queue.rows[job].status == FailedTerminal <==>
            !accepted && (curable ==> was.attemptCount + 1 == was.what.maxAttempts))
  {
    hide Gateway, ProcessOne, QueueInv, Agree, Invocations.LedgerInv;
    AnswerSetsStatus(s, job, env);
  }

  lemma ClosingRecords(q: Queue, l: Invocations.Ledger, result: Result<Id, Error>, job: Id, now: Time)
    requires job < |q.rows| && q.rows[job].status == InProgress && Classify(l, result) != Crashed
    ensures var outcome := Classify(l, result); var rows := Run(q, ClosingOps(l, result, job, now)).rows;
      && job < |rows|
      && (outcome.JobSucceeded? ==> rows[job].aiInvocationId == Some(outcome.invocation) && rows[job].lastError == q.rows[job].lastError)
      && (!outcome.JobSucceeded? ==>
            && rows[job].aiInvocationId == q.rows[job].aiInvocationId
            && rows[job].lastError == Some(Reported(
                 if outcome == RetryableConflict then "ACTIVE_INVOCATION_CONFLICT"
                 else if outcome == TerminalDefect then "DEFECT"
                 else if result.Ok? && result.value < |l.rows| then ErrorText(l.rows[result.value]) else "")))
  {
    hide ErrorText;
    RunSingle(q, ClosingOps(l, result, job, now)[0]);
  }

  /**
   * What is recorded of an answer: the invocation that succeeded, or else why the attempt failed, in
   * the provider's own code.
   */
  lemma AnswerIsRecorded(s: Shop, job: Id, env: JobEnv)
    requires ShopInv(s) && job < |s.queue.rows| && s.queue.rows[job].status == Jobs.Claimed && env.others == []
    requires Gateway(s, job, env).1 != Err(InvalidStateTransition)
    ensures job < |ProcessOne(s, job, env).0.queue.rows|
    ensures var (after, outcome) := ProcessOne(s, job, env);
      var result, provider, reply := Gateway(s, job, env).1, env.gateway.provider, env.gateway.reply; var row := after.queue.rows[job];
      && (result == Err(ActiveInvocationConflict) ==>
            outcome == RetryableConflict && row.lastError == Some(Reported("ACTIVE_INVOCATION_CONFLICT")))
      && (result == Err(ValidationError) || result == Err(NotFoundError) ==>
            outcome == TerminalDefect && row.lastError == Some(Reported("DEFECT")))
      && (result.Ok? && provider.ProviderOk? && reply.Json? && reply.matchesSchema ==>
            outcome == JobSucceeded(result.value) && row.aiInvocationId == Some(result.value))
      && (result.Ok? && provider.ProviderOk? && !(reply.Json? && reply.matchesSchema) ==>
            && outcome == TerminalFailure
            && row.lastError == Some(Reported(if reply.NotJson? then "OUTPUT_NOT_JSON" else "OUTPUT_SCHEMA_INVALID")))
      && (result.Ok? && provider.ProviderError? ==> row.lastError == Some(Reported("LITELLM_" + provider.status)))
  {
    hide Gateway, QueueInv, Agree, ClosingOps, ErrorText, ProcessOne, Lifecycle.OutputAccepted;
    var (w, result) := Gateway(s, job, env);
    var q1 := Step(s.queue, StartOp(job, env.startedAt));
    Undisturbed(s, job, env);
    if result.Ok? { AnswerText(s, job, env); }
    AcceptedMeans(env.gateway);
    ClosingDecides(q1, w.ledger, result, job, env.closedAt);
    ClosingRecords(q1, w.ledger, result, job, env.closedAt);
  }

  lemma AcceptedMeans(env: Lifecycle.Env)
    ensures Lifecycle.OutputAccepted(env) <==> env.provider.ProviderOk? && env.reply.Json? && env.reply.matchesSchema
  {}

  /** The classification is a crash exactly when the gateway met a forbidden transition. */
  lemma ClassifiedUnlessCrashed(s: Shop, job: Id, env: JobEnv)
    requires ShopInv(s)
    ensures var (w, result) := Gateway(s, job, env); Classify(w.ledger, result) == Crashed <==> result == Err(InvalidStateTransition)
  {
    hide Lifecycle.Background, Invocations.LedgerInv, QueueInv, Agree;
    if Gateway(s, job, env).1.Ok? {
      AnswerClassified(Lifecycle.World(s.ledger, s.log), CallOf(RowAt(s.queue, job).what), env.gateway);
    }
  }

  lemma Undisturbed(s: Shop, job: Id, env: JobEnv)
    requires ShopInv(s) && job < |s.queue.rows| && s.queue.rows[job].status == Jobs.Claimed && env.others == []
    requires Gateway(s, job, env).1 != Err(InvalidStateTransition)
    ensures var (w, result) := Gateway(s, job, env); var q1 := Step(s.queue, StartOp(job, env.startedAt));
      && Classify(w.ledger, result) != Crashed && job < |q1.rows| && q1.rows[job].status == InProgress
      && ProcessOne(s, job, env).0.queue == Run(q1, ClosingOps(w.ledger, result, job, env.closedAt))
      && ProcessOne(s, job, env).1 == Classify(w.ledger, result)
  {
    hide Lifecycle.Background, Invocations.LedgerInv, QueueInv, Agree, ClosingOps, Classify;
    var (w, result) := Gateway(s, job, env);
    var q1 := Step(s.queue, StartOp(job, env.startedAt));
    assert Run(q1, env.others) == q1;
    ClassifiedUnlessCrashed(s, job, env);
  }

  /** How an answer of the gateway is classified and what error text its row gives, by the provider's answer. */
  lemma AnswerText(s: Shop, job: Id, env: JobEnv)
    requires ShopInv(s) && job < |s.queue.rows| && s.queue.rows[job].status == Jobs.Claimed && Gateway(s, job, env).1.Ok?
    ensures var (w, result) := Gateway(s, job, env); var provider, reply := env.gateway.provider, env.gateway.reply;
      && result.value < |w.ledger.rows|
      && Classify(w.ledger, result) == (if Lifecycle.OutputAccepted(env.gateway) then JobSucceeded(result.value)
                                        else if Transient(provider) then RetryableFailure else TerminalFailure)
      && (provider.ProviderError? ==> ErrorText(w.ledger.rows[result.value]) == "LITELLM_" + provider.status)
      && (provider.ProviderOk? && !Lifecycle.OutputAccepted(env.gateway) ==>
            ErrorText(w.ledger.rows[result.value]) == if reply.NotJson? then "OUTPUT_NOT_JSON" else "OUTPUT_SCHEMA_INVALID")
  {
    hide Lifecycle.Background, Invocations.LedgerInv, QueueInv, Agree, Classify, Transient;
    AnswerClassified(Lifecycle.World(s.ledger, s.log), CallOf(s.queue.rows[job].what), env.gateway);
    Lifecycle.BackgroundTells(Lifecycle.World(s.ledger, s.log), CallOf(s.queue.rows[job].what), env.gateway);
  }

  /**
   * Progress.  A claimed job whose evidence nobody else works on ends SUCCEEDED with the new
   * invocation when the task, the prompt, the contracts and the provider all cooperate, whatever
   * capability the task would prefer: the job's own alias goes with the call.
   */
  lemma CooperativeJobSucceeds(s: Shop, job: Id, env: JobEnv)
    requires ShopInv(s) && job < |s.queue.rows| && s.queue.rows[job].status == Jobs.Claimed && env.others == []
    requires env.gateway.task.Some? && env.gateway.task.value.role == "BACKGROUND" && env.gateway.task.value.inputMatchesSchema
    requires env.gateway.verdicts == Invocations.Verdicts(true, true) && env.gateway.runningOk && env.gateway.promptFound
    requires env.gateway.finalOk && env.gateway.meanwhile == []
    requires env.gateway.provider.ProviderOk? && env.gateway.reply.Json? && env.gateway.reply.matchesSchema
    requires var what := s.queue.rows[job].what;
      && what.actorType in {"SYSTEM", "USER", "AGENT", "SERVICE", "EXTERNAL_SYSTEM"}
      && "evidence_id" in what.inputReferences && what.inputReferences["evidence_id"].Text?
      && what.inputReferences["evidence_id"].text != ""
      && Invocations.Subject(what.taskId, what.taskVersion, what.inputReferences["evidence_id"].text) !in s.ledger.active
    ensures job < |ProcessOne(s, job, env).0.queue.rows|
    ensures var (after, outcome) := ProcessOne(s, job, env); var row := after.queue.rows[job];
      && outcome == JobSucceeded(|s.ledger.rows|)
      && row.status == Succeeded && row.aiInvocationId == Some(|s.ledger.rows|)
  {
    hide ProcessOne, QueueInv, Agree, Lifecycle.Background, Invocations.Create, Invocations.LedgerInv, Invocations.Creatable,
      Invocations.SubjectOf, Invocations.DerivePrimary, Invocations.NamesOne;
    var world, c, task := Lifecycle.World(s.ledger, s.log), CallOf(s.queue.rows[job].what), env.gateway.task.value;
    GatewayCreates(s, job, env);
    Lifecycle.BackgroundRaisesIff(world, c, env.gateway);
    Lifecycle.TaskIsKnown(world, c, env.gateway);
    var _, _ := Lifecycle.BackgroundReturns(world, c, env.gateway);
    AnswerDecidesJob(s, job, env);
    AnswerIsRecorded(s, job, env);
  }

  lemma GatewayCreates(s: Shop, job: Id, env: JobEnv)
    requires ShopInv(s) && job < |s.queue.rows| && env.gateway.task.Some?
    requires env.gateway.verdicts == Invocations.Verdicts(true, true)
    requires var what := s.queue.rows[job].what;
      && what.actorType in {"SYSTEM", "USER", "AGENT", "SERVICE", "EXTERNAL_SYSTEM"}
      && "evidence_id" in what.inputReferences && what.inputReferences["evidence_id"].Text?
      && what.inputReferences["evidence_id"].text != ""
      && Invocations.Subject(what.taskId, what.taskVersion, what.inputReferences["evidence_id"].text) !in s.ledger.active
    ensures Invocations.Create(s.ledger, Lifecycle.RequestOf(CallOf(s.queue.rows[job].what), env.gateway.task.value),
                               env.gateway.now, env.gateway.verdicts).1.Ok?
  {
    hide Invocations.Create, Invocations.LedgerInv, Invocations.DerivePrimary;
    var what := s.queue.rows[job].what;
    var r := Lifecycle.RequestOf(CallOf(what), env.gateway.task.value);
    assert RowInv(s.queue.rows[job]);
    Invocations.FourReferences(what.inputReferences);
    Invocations.CreateRefusesIff(s.ledger, r, env.gateway.now);
    Invocations.CreateSucceedsIff(s.ledger, r, env.gateway.now);
  }

  /**
   * The script dies on a job exactly when the job is no longer claimed, when the gateway's own row was
   * moved by another caller, or when the queue row was moved on before the attempt could be closed.
   */
  lemma ProcessCrashesIff(s: Shop, job: Id, env: JobEnv)
    requires ShopInv(s)
    ensures ProcessOne(s, job, env).1 == Crashed <==>
      || !(job < |s.queue.rows| && s.queue.rows[job].status == Jobs.Claimed)
      || Gateway(s, job, env).1 == Err(InvalidStateTransition)
      || (var q2 := Run(Step(s.queue, StartOp(job, env.startedAt)), env.others);
          !(job < |q2.rows| && q2.rows[job].status == InProgress))
  {
    hide Gateway, QueueInv, Agree, Run, Step, OpsEvents, Classify;
    ClassifiedUnlessCrashed(s, job, env);
  }

  /** A claim audits what it recovers, and a claim of nothing recovers nothing. */
  lemma ClaimAudits(s: Shop, limit: int, worker: string, now: Time)
    ensures Claimed(s, limit, worker, now).log ==
            if limit >= 1 then s.log + RecoveryEvents(s.queue.rows, 600_000_000, now, |s.queue.rows|) else s.log
  {
    assert s.log + [] == s.log;
  }

  lemma AttemptWithinBudget(q: Queue, job: Id)
    requires QueueInv(q) && job < |q.rows| && q.rows[job].status == Jobs.Claimed
    ensures q.rows[job].attemptCount + 1 <= q.rows[job].what.maxAttempts
  {
    assert RowInv(q.rows[job]);
  }

  lemma ClosingDecides(q: Queue, l: Invocations.Ledger, result: Result<Id, Error>, job: Id, now: Time)
    requires job < |q.rows| && q.rows[job].status == InProgress && Classify(l, result) != Crashed
    ensures ClosingOps(l, result, job, now) != []
    ensures var outcome := Classify(l, result); var rows := Run(q, ClosingOps(l, result, job, now)).rows;
      && job < |rows| && rows[job].attemptCount == q.rows[job].attemptCount
      && rows[job].status ==
         (if outcome.JobSucceeded? then Succeeded
          else if (outcome == RetryableConflict || outcome == RetryableFailure)
                  && q.rows[job].attemptCount < q.rows[job].what.maxAttempts then FailedRetryable
          else FailedTerminal)
  {
    hide Classify;
    RunSingle(q, ClosingOps(l, result, job, now)[0]);
  }

  // ---------------------------------------------------------------------------------------------
  // Queue and ledger agree
  // ---------------------------------------------------------------------------------------------

  /** Invocation `id` succeeded for this submission's task and version, on the overflow backend. */
  predicate Backed(what: Submission, l: Invocations.Ledger, id: Id) {
    && id < |l.rows| && l.rows[id].status == Invocations.Succeeded
    && l.rows[id].what.taskId == what.taskId && l.rows[id].what.taskVersion == what.taskVersion
    && l.rows[id].what.capabilityAlias == Some("trinity-core")
    && l.rows[id].what.inferenceBackend == "TRINITY_CORE_OVERFLOW"
  }

  /** Every SUCCEEDED job names an invocation that backs it. */
  predicate Agree(q: Queue, l: Invocations.Ledger) {
    forall id: Id :: id < |q.rows| && q.rows[id].status == Succeeded ==>
      q.rows[id].aiInvocationId.Some? && Backed(q.rows[id].what, l, q.rows[id].aiInvocationId.value)
  }

  ghost predicate ShopInv(s: Shop) {
    QueueInv(s.queue) && Invocations.LedgerInv(s.ledger) && Agree(s.queue, s.ledger)
  }

  /** Every `mark_succeeded` among `ops` names an invocation that backs its job. */
  predicate Honest(q: Queue, l: Invocations.Ledger, ops: seq<Op>) {
    forall i :: 0 <= i < |ops| && ops[i].SucceedOp? && ops[i].id < |q.rows| ==>
      Backed(q.rows[ops[i].id].what, l, ops[i].invocation)
  }

  /** A job that is SUCCEEDED after some calls was so before, or one of the calls marked it. */
  lemma {:induction false} SucceededByCall(q: Queue, ops: seq<Op>, id: Id) returns (k: nat)
    requires QueueInv(q) && id < |Run(q, ops).rows| && Run(q, ops).rows[id].status == Succeeded
    ensures k <= |ops|
    ensures k == |ops| ==> id < |q.rows| && q.rows[id] == Run(q, ops).rows[id]
    ensures k < |ops| ==> ops[k].SucceedOp? && ops[k].id == id
                          && Run(q, ops).rows[id].aiInvocationId == Some(ops[k].invocation)
    decreases |ops|
  {
    if ops == [] {
      k := 0;
    } else {
      var q1 := Step(q, ops[0]);
      StepKeepsInv(q, ops[0]);
      var j := SucceededByCall(q1, ops[1..], id);
      k := j + 1;
      if j == |ops| - 1 { k := FirstCallSucceeds(q, ops[0], id, |ops|); }
    }
  }

  lemma FirstCallSucceeds(q: Queue, op: Op, id: Id, n: nat) returns (k: nat)
    requires QueueInv(q) && n >= 1
    requires id < |Step(q, op).rows| && Step(q, op).rows[id].status == Succeeded
    ensures k == 0 || k == n
    ensures k == 0 ==> op.SucceedOp? && op.id == id && Step(q, op).rows[id].aiInvocationId == Some(op.invocation)
    ensures k == n ==> id < |q.rows| && q.rows[id] == Step(q, op).rows[id]
  {
    if id < |q.rows| && Terminal(q.rows[id].status) {
      StepMovesRow(q, op, id);
      k := n;
    } else {
      k := 0;
      if id < |q.rows| { StepMovesRow(q, op, id); }
      OnlySucceedOpSucceeds(q, op, id);
    }
  }

  lemma OnlySucceedOpSucceeds(q: Queue, op: Op, id: Id)
    requires QueueInv(q) && id < |Step(q, op).rows| && Step(q, op).rows[id].status == Succeeded
    requires id < |q.rows| ==> !Terminal(q.rows[id].status)
    ensures op.SucceedOp? && op.id == id && Step(q, op).rows[id].aiInvocationId == Some(op.invocation)
  {
    if op.ClaimOp? && id < |q.rows| {
      ClaimMovesRow(q, op.limit, op.worker, op.now, id);
      ClaimNeverSucceeds(q, op.limit, op.worker, op.now, id);
      hide ClaimNext;
    } else {
      hide ClaimNext, RecoverStaleClaim;
    }
  }

  lemma ClaimNeverSucceeds(q: Queue, limit: int, worker: string, now: Time, id: Id)
    requires id < |q.rows| && !Terminal(q.rows[id].status)
    ensures ClaimNext(q, limit, worker, now).rows[id].status != Succeeded
  {
    hide Chosen;
  }

  /** Honest queue calls keep the agreement. */
  lemma HonestCallsKeepAgreement(q: Queue, l: Invocations.Ledger, ops: seq<Op>)
    requires QueueInv(q) && Agree(q, l) && Honest(Run(q, ops), l, ops)
    ensures QueueInv(Run(q, ops)) && Agree(Run(q, ops), l)
  {
    RunKeepsInv(q, ops);
    var q' := Run(q, ops);
    forall id: Id | id < |q'.rows| && q'.rows[id].status == Succeeded
      ensures q'.rows[id].aiInvocationId.Some? && Backed(q'.rows[id].what, l, q'.rows[id].aiInvocationId.value)
    {
      var k := SucceededByCall(q, ops, id);
    }
  }

  /** The ledger calls that a background call makes or lets others make. */
  function GatewayOps(w: Lifecycle.World, c: Lifecycle.Call, env: Lifecycle.Env): seq<Invocations.Op> {
    if env.task == None || env.task.value.role != "BACKGROUND" || !env.task.value.inputMatchesSchema then []
    else
      var create := Invocations.CreateOp(Lifecycle.RequestOf(c, env.task.value), env.now, env.verdicts);
      var (l, created, _) := Invocations.Create(w.ledger, create.r, env.now, env.verdicts);
      if created.Err? then [create]
      else
        var run := Invocations.TransitionOp(created.value, Invocations.Running, Invocations.NO_OUTCOME, env.now, env.runningOk);
        if Invocations.MoveRow(l, run.id, run.to, run.outcome, env.now, env.runningOk).1.Err? || !env.promptFound
        then [create, run]
        else [create, run] + env.meanwhile +
             [Invocations.TransitionOp(created.value, Lifecycle.Target(env), Lifecycle.FinalOutcome(env), env.now, env.finalOk)]
  }

  lemma {:induction false} LedgerRunsCompose(l: Invocations.Ledger, a: seq<Invocations.Op>, b: seq<Invocations.Op>)
    ensures Invocations.Run(l, a + b) == Invocations.Run(Invocations.Run(l, a), b)
    decreases |a|
  {
    hide Invocations.Step;
    if a == [] {
      assert a + b == b;
    } else {
      LedgerRunsCompose(Invocations.Step(l, a[0]), a[1..], b);
      assert (a + b)[1..] == a[1..] + b;
    }
  }

  /** The gateway changes the ledger only through repository calls. */
  lemma GatewayIsRun(w: Lifecycle.World, c: Lifecycle.Call, env: Lifecycle.Env)
    ensures Lifecycle.Background(w, c, env).0.ledger == Invocations.Run(w.ledger, GatewayOps(w, c, env))
  {
    var ops := GatewayOps(w, c, env);
    if |ops| > 2 {
      var create, run, final := ops[0], ops[1], ops[|ops| - 1];
      LedgerRunsCompose(w.ledger, [create, run] + env.meanwhile, [final]);
      LedgerRunsCompose(w.ledger, [create, run], env.meanwhile);
      RunTwo(w.ledger, create, run);
      RunOne(Invocations.Run(Invocations.Run(w.ledger, [create, run]), env.meanwhile), final);
    } else if |ops| == 2 {
      RunTwo(w.ledger, ops[0], ops[1]);
    } else if |ops| == 1 {
      RunOne(w.ledger, ops[0]);
    }
  }

  lemma RunOne(l: Invocations.Ledger, a: Invocations.Op)
    ensures Invocations.Run(l, [a]) == Invocations.Step(l, a)
  {
    assert [a][1..] == [];
  }

  lemma RunTwo(l: Invocations.Ledger, a: Invocations.Op, b: Invocations.Op)
    ensures Invocations.Run(l, [a, b]) == Invocations.Step(Invocations.Step(l, a), b)
  {
    assert [a, b][1..] == [b];
    RunOne(Invocations.Step(l, a), b);
  }

  /** Later ledger calls never undo the agreement. */
  lemma LedgerCallsKeepAgreement(q: Queue, l: Invocations.Ledger, ops: seq<Invocations.Op>)
    requires Agree(q, l)
    ensures Agree(q, Invocations.Run(l, ops))
  {
    forall id: Id | id < |q.rows| && q.rows[id].status == Succeeded
      ensures Backed(q.rows[id].what, Invocations.Run(l, ops), q.rows[id].aiInvocationId.value)
    {
      Invocations.TerminalForEver(l, ops, q.rows[id].aiInvocationId.value);
    }
  }

  /** Other workers only mark jobs succeeded for invocations that really back them. */
  predicate OthersHonest(s: Shop, job: Id, env: JobEnv) {
    Honest(ProcessOne(s, job, env).0.queue, ProcessOne(s, job, env).0.ledger, env.others)
  }

  lemma {:induction false} QueueRunsCompose(q: Queue, a: seq<Op>, b: seq<Op>)
    ensures Run(q, a + b) == Run(Run(q, a), b)
    decreases |a|
  {
    hide Step;
    if a == [] {
      assert a + b == b;
    } else {
      QueueRunsCompose(Step(q, a[0]), a[1..], b);
      assert (a + b)[1..] == a[1..] + b;
    }
  }

  /** Processing a job changes the queue exactly as `JobOps` does. */
  lemma ProcessOneIsRun(s: Shop, job: Id, env: JobEnv)
    ensures ProcessOne(s, job, env).0.queue == Run(s.queue, JobOps(s, job, env))
  {
    var ops := JobOps(s, job, env);
    var rest := ops[1..];
    if Starts(s.queue, ops[0], job) == 1 {
      var (w, result) := Gateway(s, job, env);
      var closing := ClosingOps(w.ledger, result, job, env.closedAt);
      assert rest == env.others + closing;
      QueueRunsCompose(Step(s.queue, ops[0]), env.others, closing);
    } else {
      assert rest == [];
    }
  }

  /** The worker marks a job succeeded only with the invocation it has just run for it. */
  lemma ClosingIsHonest(s: Shop, job: Id, env: JobEnv)
    requires ShopInv(s) && Starts(s.queue, StartOp(job, env.startedAt), job) == 1
    ensures var (w, result) := Gateway(s, job, env);
      Classify(w.ledger, result).JobSucceeded? ==> Backed(s.queue.rows[job].what, w.ledger, result.value)
  {
    var (w, result) := Gateway(s, job, env);
    if Classify(w.ledger, result).JobSucceeded? {
      var _, _ := Lifecycle.BackgroundReturns(Lifecycle.World(s.ledger, s.log), CallOf(s.queue.rows[job].what), env.gateway);
      assert RowInv(s.queue.rows[job]);
    }
  }

  lemma {:induction false} RunKeepsWhat(q: Queue, ops: seq<Op>, id: Id)
    requires QueueInv(q) && id < |q.rows|
    ensures id < |Run(q, ops).rows| && Run(q, ops).rows[id].what == q.rows[id].what
    decreases |ops|
  {
    if ops != [] {
      StepKeepsInv(q, ops[0]);
      StepMovesRow(q, ops[0], id);
      RunKeepsWhat(Step(q, ops[0]), ops[1..], id);
    }
  }

  lemma ClosingOpsAreHonest(s: Shop, job: Id, env: JobEnv, q: Queue)
    requires ShopInv(s) && Starts(s.queue, StartOp(job, env.startedAt), job) == 1
    requires job < |q.rows| && q.rows[job].what == s.queue.rows[job].what
    ensures var (w, result) := Gateway(s, job, env);
      Honest(q, w.ledger, ClosingOps(w.ledger, result, job, env.closedAt))
  {
    hide Lifecycle.Background;
    ClosingIsHonest(s, job, env);
  }

  lemma JobOpsAreHonest(s: Shop, job: Id, env: JobEnv)
    requires ShopInv(s) && OthersHonest(s, job, env)
    ensures Honest(ProcessOne(s, job, env).0.queue, ProcessOne(s, job, env).0.ledger, JobOps(s, job, env))
  {
    hide Lifecycle.Background, QueueInv, Invocations.LedgerInv, Agree, Honest, Run, Step, ClosingOps, Classify;
    var start := StartOp(job, env.startedAt);
    var q := ProcessOne(s, job, env).0.queue;
    if Starts(s.queue, start, job) == 1 {
      var (w, result) := Gateway(s, job, env);
      ProcessOneIsRun(s, job, env);
      RunKeepsWhat(s.queue, JobOps(s, job, env), job);
      ClosingOpsAreHonest(s, job, env, q);
      HonestJoin(q, w.ledger, start, env.others, ClosingOps(w.ledger, result, job, env.closedAt));
    } else {
      NoSuccessesHonest(q, s.ledger, JobOps(s, job, env));
    }
  }

  lemma NoSuccessesHonest(q: Queue, l: Invocations.Ledger, ops: seq<Op>)
    requires forall i :: 0 <= i < |ops| ==> !ops[i].SucceedOp?
    ensures Honest(q, l, ops)
  {
  }

  lemma HonestJoin(q: Queue, l: Invocations.Ledger, first: Op, a: seq<Op>, b: seq<Op>)
    requires !first.SucceedOp? && Honest(q, l, a) && Honest(q, l, b)
    ensures Honest(q, l, [first] + (a + b))
  {
  }

  /**
   * Processing one job keeps the agreement between queue and ledger, whatever the provider answers
   * and whatever other workers and callers do meanwhile.
   */
  lemma ProcessOneKeepsAgreement(s: Shop, job: Id, env: JobEnv)
    requires ShopInv(s)
    ensures OthersHonest(s, job, env) ==> ShopInv(ProcessOne(s, job, env).0)
  {
    if !OthersHonest(s, job, env) { return; }
    var s' := ProcessOne(s, job, env).0;
    ProcessOneIsRun(s, job, env);
    JobOpsAreHonest(s, job, env);
    if Starts(s.queue, StartOp(job, env.startedAt), job) == 1 {
      var w, c := Lifecycle.World(s.ledger, s.log), CallOf(RowAt(s.queue, job).what);
      GatewayIsRun(w, c, env.gateway);
      LedgerCallsKeepAgreement(s.queue, s.ledger, GatewayOps(w, c, env.gateway));
      Lifecycle.BackgroundKeepsInv(w, c, env.gateway);
    }
    HonestCallsKeepAgreement(s.queue, s'.ledger, JobOps(s, job, env));
  }

  ghost predicate AllHonest(s: Shop, claimed: seq<Id>, envs: seq<JobEnv>)
    decreases |claimed|
  {
    claimed == [] || envs == [] ||
    (&& OthersHonest(s, claimed[0], envs[0])
     && AllHonest(ProcessOne(s, claimed[0], envs[0]).0, claimed[1..], envs[1..]))
  }

  lemma {:induction false} ProcessAllKeepsAgreement(s: Shop, claimed: seq<Id>, envs: seq<JobEnv>)
    requires ShopInv(s) && AllHonest(s, claimed, envs)
    ensures ShopInv(ProcessAll(s, claimed, envs).0)
    decreases |claimed|
  {
    if claimed != [] && envs != [] {
      ProcessOneKeepsAgreement(s, claimed[0], envs[0]);
      ProcessAllKeepsAgreement(ProcessOne(s, claimed[0], envs[0]).0, claimed[1..], envs[1..]);
    }
  }

  /** A whole worker run keeps the agreement. */
  lemma RunProcessKeepsAgreement(s: Shop, limit: int, worker: string, now: Time, envs: seq<JobEnv>)
    requires ShopInv(s)
    requires AllHonest(Claimed(s, limit, worker, now), ClaimedIds(s.queue, limit, now), envs)
    ensures ShopInv(RunProcess(s, limit, worker, now, envs).0)
  {
    var claim := [ClaimOp(limit, worker, now)];
    RunSingle(s.queue, claim[0]);
    HonestCallsKeepAgreement(s.queue, s.ledger, claim);
    ProcessAllKeepsAgreement(Claimed(s, limit, worker, now), ClaimedIds(s.queue, limit, now), envs);
  }

  /** A SUCCEEDED job and the invocation it names stay as they are, whatever is called later. */
  lemma AgreementForEver(s: Shop, id: Id, queueOps: seq<Op>, ledgerOps: seq<Invocations.Op>)
    requires ShopInv(s) && id < |s.queue.rows| && s.queue.rows[id].status == Succeeded
    ensures id < |Run(s.queue, queueOps).rows| && Run(s.queue, queueOps).rows[id] == s.queue.rows[id]
    ensures var i := s.queue.rows[id].aiInvocationId.value; var l := Invocations.Run(s.ledger, ledgerOps);
      i < |s.ledger.rows| && i < |l.rows| && l.rows[i] == s.ledger.rows[i]
      && Backed(s.queue.rows[id].what, l, i)
  {
    FinishedForEver(s.queue, queueOps, id);
    Invocations.TerminalForEver(s.ledger, ledgerOps, s.queue.rows[id].aiInvocationId.value);
  }

  // ---------------------------------------------------------------------------------------------
  // The worker's runs are productive rounds
  // ---------------------------------------------------------------------------------------------

  function AllOps(s: Shop, claimed: seq<Id>, envs: seq<JobEnv>): seq<Op>
    decreases |claimed|
  {
    if claimed == [] || envs == [] then []
    else
      var (s1, outcome) := ProcessOne(s, claimed[0], envs[0]);
      JobOps(s, claimed[0], envs[0]) + (if outcome == Crashed then [] else AllOps(s1, claimed[1..], envs[1..]))
  }

  lemma {:induction false} ProcessAllIsRun(s: Shop, claimed: seq<Id>, envs: seq<JobEnv>)
    ensures ProcessAll(s, claimed, envs).0.queue == Run(s.queue, AllOps(s, claimed, envs))
    decreases |claimed|
  {
    if claimed != [] && envs != [] {
      var (s1, outcome) := ProcessOne(s, claimed[0], envs[0]);
      var first := JobOps(s, claimed[0], envs[0]);
      ProcessOneIsRun(s, claimed[0], envs[0]);
      if outcome != Crashed {
        ProcessAllIsRun(s1, claimed[1..], envs[1..]);
        QueueRunsCompose(s.queue, first, AllOps(s1, claimed[1..], envs[1..]));
      } else {
        assert first + [] == first;
      }
    }
  }

  function WorkerRound(s: Shop, limit: int, worker: string, now: Time, envs: seq<JobEnv>): Round {
    Round(limit, worker, now, AllOps(Claimed(s, limit, worker, now), ClaimedIds(s.queue, limit, now), envs))
  }

  /**
   * Every run of the script that gets as far as its first job, even one that dies in it, acts on the
   * queue as a productive round, so the bounded-waiting theorem applies to it.
   */
  lemma WorkerRoundIsProductive(s: Shop, limit: int, worker: string, now: Time, envs: seq<JobEnv>)
    requires QueueInv(s.queue) && limit >= 1 && envs != []
    ensures RunProcess(s, limit, worker, now, envs).0.queue ==
            Run(s.queue, RoundOps(WorkerRound(s, limit, worker, now, envs)))
    ensures Productive(s.queue, WorkerRound(s, limit, worker, now, envs))
  {
    var s1 := Claimed(s, limit, worker, now);
    var claimed := ClaimedIds(s.queue, limit, now);
    var round := WorkerRound(s, limit, worker, now, envs);
    assert RoundOps(round)[1..] == round.rest;
    ProcessAllIsRun(s1, claimed, envs);
    if claimed != [] {
      ChosenAreClaimable(Recover(s.queue, Jobs.STALE_THRESHOLD, now).rows, limit);
      var start := StartOp(claimed[0], envs[0].startedAt);
      assert round.rest[0] == start;
      assert Starts(s1.queue, start, claimed[0]) == 1;
      assert Dispatches(s1.queue, round.rest, claimed[0]) >= 1;
    }
  }
}
