/**
 * Any number of workers running scripts/process_background_job_overflow.py at once, interleaved call
 * by call with each other and with all other users of the two repositories, and killed anywhere.
 */
module Fleet {
  import Audit
  import opened Common
  import opened Jobs
  import opened JobRuns
  import Invocations
  import Lifecycle
  import Worker

  type WorkerId = nat

  /** Where a worker is between two repository calls; `rest` holds the claimed jobs still to come. */
  datatype Phase =
    | Idle
    | Holding(rest: seq<Id>)
    | Started(job: Id, rest: seq<Id>)
    | Requested(job: Id, rest: seq<Id>, invocation: Id)
    | Calling(job: Id, rest: seq<Id>, invocation: Id)
    | Answered(job: Id, rest: seq<Id>, result: Result<Id, Error>)

  datatype Fleet = Fleet(queue: Queue, ledger: Invocations.Ledger, workers: map<WorkerId, Phase>)

  const EMPTY: Fleet := Fleet(Jobs.EMPTY, Invocations.EMPTY, map[])

  /** What happens next; mark_succeeded has no other caller than this script. */
  datatype Event =
    | Claim(w: WorkerId, limit: int, name: string, now: Time)
    | Advance(w: WorkerId, env: Worker.JobEnv)
    | Killed(w: WorkerId)
    | QueueCall(op: Op)
    | LedgerCall(ledgerOp: Invocations.Op)

  /** At most one call to each repository, and the phase after it. */
  datatype Move = Move(queueOps: seq<Op>, ledgerOps: seq<Invocations.Op>, phase: Phase)

  function PhaseOf(f: Fleet, w: WorkerId): Phase { if w in f.workers then f.workers[w] else Idle }

  /** `mark_in_progress` on the next claimed job; when it raises, the script ends. */
  function StartNext(f: Fleet, rest: seq<Id>, now: Time): Move {
    if rest == [] then Move([], [], Idle)
    else
      var op := StartOp(rest[0], now);
      Move([op], [], if Starts(f.queue, op, rest[0]) == 1 then Started(rest[0], rest[1..]) else Idle)
  }

  /** The gateway up to the creation of the row. */
  function CreateRow(f: Fleet, job: Id, rest: seq<Id>, env: Lifecycle.Env): Move {
    if env.task == None then Move([], [], Answered(job, rest, Err(NotFoundError)))
    else if env.task.value.role != "BACKGROUND" || !env.task.value.inputMatchesSchema then
      Move([], [], Answered(job, rest, Err(ValidationError)))
    else
      var r := Lifecycle.RequestOf(Worker.CallOf(RowAt(f.queue, job).what), env.task.value);
      var created := Invocations.Create(f.ledger, r, env.now, env.verdicts).1;
      Move([], [Invocations.CreateOp(r, env.now, env.verdicts)],
           if created.Ok? then Requested(job, rest, created.value) else Answered(job, rest, Err(created.error)))
  }

  function Dispatch(f: Fleet, job: Id, rest: seq<Id>, id: Id, env: Lifecycle.Env): Move {
    var moved := Invocations.MoveRow(f.ledger, id, Invocations.Running, Invocations.NO_OUTCOME, env.now, env.runningOk).1;
    Move([], [Invocations.TransitionOp(id, Invocations.Running, Invocations.NO_OUTCOME, env.now, env.runningOk)],
         if moved.Ok? then Calling(job, rest, id) else Answered(job, rest, Err(moved.error)))
  }

  /** The prompt lookup, the provider call and the terminal transition it leads to. */
  function Conclude(f: Fleet, job: Id, rest: seq<Id>, id: Id, env: Lifecycle.Env): Move {
    if !env.promptFound then Move([], [], Answered(job, rest, Err(NotFoundError)))
    else
      var to, outcome := Lifecycle.Target(env), Lifecycle.FinalOutcome(env);
      var moved := Invocations.MoveRow(f.ledger, id, to, outcome, env.now, env.finalOk).1;
      Move([], [Invocations.TransitionOp(id, to, outcome, env.now, env.finalOk)],
           Answered(job, rest, if moved.Ok? then Ok(id) else Err(moved.error)))
  }

  /** Closes the job; an exception that is not caught ends the script. */
  function Close(f: Fleet, job: Id, rest: seq<Id>, result: Result<Id, Error>, now: Time): Move {
    var ops := Worker.ClosingOps(f.ledger, result, job, now);
    Move(ops, [], if ops != [] && job < |f.queue.rows| && f.queue.rows[job].status == InProgress then Holding(rest) else Idle)
  }

  function Next(f: Fleet, w: WorkerId, env: Worker.JobEnv): Move {
    match PhaseOf(f, w)
    case Idle => Move([], [], Idle)
    case Holding(rest) => StartNext(f, rest, env.startedAt)
    case Started(job, rest) => CreateRow(f, job, rest, env.gateway)
    case Requested(job, rest, id) => Dispatch(f, job, rest, id, env.gateway)
    case Calling(job, rest, id) => Conclude(f, job, rest, id, env.gateway)
    case Answered(job, rest, result) => Close(f, job, rest, result, env.closedAt)
  }

  function Apply(f: Fleet, w: WorkerId, m: Move): Fleet {
    Fleet(JobRuns.Run(f.queue, m.queueOps), Invocations.Run(f.ledger, m.ledgerOps), f.workers[w := m.phase])
  }

  function Step(f: Fleet, e: Event): Fleet {
    match e
    case Claim(w, limit, name, now) =>
      if PhaseOf(f, w).Idle?
      then Apply(f, w, Move([ClaimOp(limit, name, now)], [], Holding(ClaimedIds(f.queue, limit, now)))) else f
    case Advance(w, env) => Apply(f, w, Next(f, w, env))
    case Killed(w) => f.(workers := f.workers[w := Idle])
    case QueueCall(op) => if op.SucceedOp? then f else f.(queue := JobRuns.Step(f.queue, op))
    case LedgerCall(op) => f.(ledger := Invocations.Step(f.ledger, op))
  }

  function Run(f: Fleet, trace: seq<Event>): Fleet
    decreases |trace|
  {
    if trace == [] then f else Run(Step(f, trace[0]), trace[1..])
  }

  // ---------------------------------------------------------------------------------------------
  // The invariant
  // ---------------------------------------------------------------------------------------------

  /** The invocation was created for this job: same task and version, on the overflow backend. */
  predicate MadeFor(q: Queue, l: Invocations.Ledger, job: Id, id: Id) {
    && job < |q.rows| && id < |l.rows|
    && l.rows[id].what.taskId == q.rows[job].what.taskId && l.rows[id].what.taskVersion == q.rows[job].what.taskVersion
    && l.rows[id].what.capabilityAlias == Some("trinity-core")
    && l.rows[id].what.inferenceBackend == "TRINITY_CORE_OVERFLOW"
  }

  predicate Known(q: Queue, ids: seq<Id>) {
    forall i :: 0 <= i < |ids| ==> ids[i] < |q.rows|
  }

  predicate PhaseOk(q: Queue, l: Invocations.Ledger, p: Phase) {
    match p
    case Idle => true
    case Holding(rest) => Known(q, rest)
    case Started(job, rest) => job < |q.rows| && Known(q, rest)
    case Requested(job, rest, id) => MadeFor(q, l, job, id) && Known(q, rest)
    case Calling(job, rest, id) => MadeFor(q, l, job, id) && Known(q, rest)
    case Answered(job, rest, result) => job < |q.rows| && Known(q, rest) && (result.Ok? ==> MadeFor(q, l, job, result.value))
  }

  ghost predicate Sound(q: Queue, l: Invocations.Ledger) {
    QueueInv(q) && Invocations.LedgerInv(l) && Worker.Agree(q, l)
  }

  ghost predicate Inv(f: Fleet) {
    && Sound(f.queue, f.ledger)
    && forall w: WorkerId :: w in f.workers ==> PhaseOk(f.queue, f.ledger, f.workers[w])
  }

  /** Calls to the two repositories keep what every other worker relies on. */
  ghost predicate Extends(q: Queue, l: Invocations.Ledger, q': Queue, l': Invocations.Ledger) {
    && |q.rows| <= |q'.rows| && |l.rows| <= |l'.rows|
    && (forall id: Id :: id < |q.rows| ==> q'.rows[id].what == q.rows[id].what)
    && (forall id: Id :: id < |l.rows| ==> l'.rows[id].what == l.rows[id].what)
  }

  lemma PhaseSurvives(q: Queue, l: Invocations.Ledger, q': Queue, l': Invocations.Ledger, p: Phase)
    requires PhaseOk(q, l, p) && Extends(q, l, q', l')
    ensures PhaseOk(q', l', p)
  {}

  lemma QueueStepExtends(q: Queue, l: Invocations.Ledger, op: Op)
    ensures Extends(q, l, JobRuns.Step(q, op), l)
  {
    hide JobRuns.Step;
    if q.rows != [] { JobRuns.StepMovesRow(q, op, 0); }
    forall id: Id | id < |q.rows| ensures id < |JobRuns.Step(q, op).rows| && JobRuns.Step(q, op).rows[id].what == q.rows[id].what {
      JobRuns.StepMovesRow(q, op, id);
    }
  }

  lemma LedgerStepExtends(q: Queue, l: Invocations.Ledger, op: Invocations.Op)
    ensures Extends(q, l, q, Invocations.Step(l, op))
  {
    hide Invocations.Step;
    if l.rows != [] { Invocations.StepMovesRow(l, op, 0); }
    forall id: Id | id < |l.rows| ensures id < |Invocations.Step(l, op).rows| && Invocations.Step(l, op).rows[id].what == l.rows[id].what {
      Invocations.StepMovesRow(l, op, id);
    }
  }

  /** A queue call that marks success only with an invocation that backs the job keeps the agreement. */
  lemma QueueStepSound(q: Queue, l: Invocations.Ledger, op: Op)
    requires Sound(q, l)
    requires op.SucceedOp? && op.id < |q.rows| ==> Worker.Backed(q.rows[op.id].what, l, op.invocation)
    ensures Sound(JobRuns.Step(q, op), l)
  {
    hide JobRuns.Step, QueueInv, Invocations.LedgerInv, Worker.Agree, Worker.Backed;
    Worker.RunSingle(q, op);
    QueueStepExtends(q, l, op);
    assert Worker.Honest(JobRuns.Run(q, [op]), l, [op]) by { JobRuns.StepKeepsInv(q, op); OneHonest(q, l, op); }
    Worker.HonestCallsKeepAgreement(q, l, [op]);
  }

  lemma OneHonest(q: Queue, l: Invocations.Ledger, op: Op)
    requires op.SucceedOp? && op.id < |q.rows| ==> Worker.Backed(q.rows[op.id].what, l, op.invocation)
    ensures Worker.Honest(JobRuns.Step(q, op), l, [op])
  {
    hide Worker.Backed;
    if op.SucceedOp? && op.id < |q.rows| { JobRuns.StepMovesRow(q, op, op.id); }
  }

  lemma LedgerStepSound(q: Queue, l: Invocations.Ledger, op: Invocations.Op)
    requires Sound(q, l)
    ensures Sound(q, Invocations.Step(l, op))
  {
    hide Invocations.Step, QueueInv, Invocations.LedgerInv, Worker.Agree;
    Worker.RunOne(l, op);
    Invocations.StepKeepsInv(l, op);
    Worker.LedgerCallsKeepAgreement(q, l, [op]);
  }

  // ---------------------------------------------------------------------------------------------
  // One worker's call
  // ---------------------------------------------------------------------------------------------

  /** What a move must be: one call at most, and a success mark only for an invocation that backs its job. */
  ghost predicate Fair(f: Fleet, m: Move) {
    && |m.queueOps| + |m.ledgerOps| <= 1
    && (m.queueOps != [] && m.queueOps[0].SucceedOp? && m.queueOps[0].id < |f.queue.rows| ==>
          Worker.Backed(f.queue.rows[m.queueOps[0].id].what, f.ledger, m.queueOps[0].invocation))
  }

  /** Closing a job is fair: the invocation was made for it, and the mark is success only if it succeeded. */
  lemma CloseIsFair(f: Fleet, job: Id, rest: seq<Id>, result: Result<Id, Error>, now: Time)
    requires PhaseOk(f.queue, f.ledger, Answered(job, rest, result))
    ensures Fair(f, Close(f, job, rest, result, now))
    ensures PhaseOk(f.queue, f.ledger, Close(f, job, rest, result, now).phase)
  {}

  lemma NextIsFair(f: Fleet, w: WorkerId, env: Worker.JobEnv)
    requires Inv(f)
    ensures Fair(f, Next(f, w, env))
  {
    hide QueueInv, Invocations.LedgerInv, Worker.Agree, Worker.ClosingOps, Worker.Backed, Close, Starts;
    match PhaseOf(f, w)
    case Answered(job, rest, result) => CloseIsFair(f, job, rest, result, env.closedAt);
    case _ =>
  }

  lemma CreatedRowIsMadeFor(f: Fleet, job: Id, rest: seq<Id>, env: Lifecycle.Env)
    requires Sound(f.queue, f.ledger) && job < |f.queue.rows| && CreateRow(f, job, rest, env).phase.Requested?
    ensures var m := CreateRow(f, job, rest, env);
      MadeFor(f.queue, Invocations.Run(f.ledger, m.ledgerOps), job, m.phase.invocation)
  {
    hide Invocations.Create, Invocations.LedgerInv, KeysInv, Worker.Agree;
    var m := CreateRow(f, job, rest, env);
    Worker.RunOne(f.ledger, m.ledgerOps[0]);
    var r := Lifecycle.RequestOf(Worker.CallOf(f.queue.rows[job].what), env.task.value);
    Lifecycle.CreatedRow(f.ledger, r, env.now, env.verdicts);
    assert RowInv(f.queue.rows[job]);
  }

  lemma MadeForExisting(q: Queue, l: Invocations.Ledger, job: Id, id: Id)
    requires MadeFor(q, l, job, id)
    ensures job < |q.rows|
  {}

  /** The phase after a move holds in the repositories after it. */
  lemma NextPhaseOk(f: Fleet, w: WorkerId, env: Worker.JobEnv)
    requires Inv(f)
    ensures var m := Next(f, w, env); var after := Apply(f, w, m); PhaseOk(after.queue, after.ledger, m.phase)
  {
    hide QueueInv, Invocations.LedgerInv, Worker.Agree, Worker.ClosingOps, JobRuns.Step, Invocations.Step,
      Invocations.Create, Invocations.MoveRow, JobRuns.Run, Invocations.Run, MadeFor;
    var m := Next(f, w, env);
    NextIsFair(f, w, env);
    MoveExtends(f, m);
    var after := Apply(f, w, m);
    var p := PhaseOf(f, w);
    assert PhaseOk(f.queue, f.ledger, p);
    PhaseSurvives(f.queue, f.ledger, after.queue, after.ledger, p);
    NoOps(f.queue);
    if p.Requested? || p.Calling? { MadeForExisting(after.queue, after.ledger, p.job, p.invocation); }
    if p.Started? && m.phase.Requested? { CreatedRowIsMadeFor(f, p.job, p.rest, env.gateway); }
  }

  lemma MoveExtends(f: Fleet, m: Move)
    requires |m.queueOps| + |m.ledgerOps| <= 1
    ensures Extends(f.queue, f.ledger, JobRuns.Run(f.queue, m.queueOps), Invocations.Run(f.ledger, m.ledgerOps))
  {
    hide JobRuns.Step, Invocations.Step;
    if |m.queueOps| == 1 {
      Worker.RunSingle(f.queue, m.queueOps[0]);
      QueueStepExtends(f.queue, f.ledger, m.queueOps[0]);
    } else if |m.ledgerOps| == 1 {
      Worker.RunOne(f.ledger, m.ledgerOps[0]);
      LedgerStepExtends(f.queue, f.ledger, m.ledgerOps[0]);
    }
  }

  lemma MoveSound(f: Fleet, m: Move)
    requires Sound(f.queue, f.ledger) && Fair(f, m)
    ensures Sound(JobRuns.Run(f.queue, m.queueOps), Invocations.Run(f.ledger, m.ledgerOps))
  {
    hide JobRuns.Step, Invocations.Step, Sound;
    if |m.queueOps| == 1 {
      Worker.RunSingle(f.queue, m.queueOps[0]);
      QueueStepSound(f.queue, f.ledger, m.queueOps[0]);
    } else if |m.ledgerOps| == 1 {
      Worker.RunOne(f.ledger, m.ledgerOps[0]);
      LedgerStepSound(f.queue, f.ledger, m.ledgerOps[0]);
    }
  }

  lemma ApplyKeepsInv(f: Fleet, w: WorkerId, m: Move)
    requires Inv(f) && Fair(f, m)
    requires PhaseOk(Apply(f, w, m).queue, Apply(f, w, m).ledger, m.phase)
    ensures Inv(Apply(f, w, m))
  {
    hide JobRuns.Run, Invocations.Run, Sound, PhaseOk, Extends;
    MoveSound(f, m);
    MoveExtends(f, m);
    var after := Apply(f, w, m);
    forall v: WorkerId | v in after.workers ensures PhaseOk(after.queue, after.ledger, after.workers[v]) {
      if v != w { PhaseSurvives(f.queue, f.ledger, after.queue, after.ledger, f.workers[v]); }
    }
  }

  lemma ClaimedAreKnown(q: Queue, limit: int, name: string, now: Time)
    ensures Known(JobRuns.Run(q, [ClaimOp(limit, name, now)]), ClaimedIds(q, limit, now))
  {
    hide Chosen;
    Worker.RunSingle(q, ClaimOp(limit, name, now));
    ChosenAreClaimable(Recover(q, Jobs.STALE_THRESHOLD, now).rows, limit);
  }

  lemma StepKeepsInv(f: Fleet, e: Event)
    requires Inv(f)
    ensures Inv(Step(f, e))
  {
    hide Next, Apply, JobRuns.Step, Invocations.Step, Sound, PhaseOk, Extends, JobRuns.Run, Invocations.Run;
    match e
    case Claim(w, limit, name, now) =>
      if PhaseOf(f, w).Idle? {
        var m := Move([ClaimOp(limit, name, now)], [], Holding(ClaimedIds(f.queue, limit, now)));
        ClaimPhaseOk(f, w, limit, name, now);
        ApplyKeepsInv(f, w, m);
      }
    case Advance(w, env) =>
      NextIsFair(f, w, env);
      NextPhaseOk(f, w, env);
      ApplyKeepsInv(f, w, Next(f, w, env));
    case Killed(w) =>
      assert PhaseOk(f.queue, f.ledger, Idle) by { IdleIsOk(f.queue, f.ledger); }
    case QueueCall(op) =>
      if !op.SucceedOp? {
        QueueStepSound(f.queue, f.ledger, op);
        QueueStepExtends(f.queue, f.ledger, op);
        PhasesSurvive(f, Step(f, e));
      }
    case LedgerCall(op) =>
      LedgerStepSound(f.queue, f.ledger, op);
      LedgerStepExtends(f.queue, f.ledger, op);
      PhasesSurvive(f, Step(f, e));
  }

  lemma IdleIsOk(q: Queue, l: Invocations.Ledger)
    ensures PhaseOk(q, l, Idle)
  {}

  lemma ClaimPhaseOk(f: Fleet, w: WorkerId, limit: int, name: string, now: Time)
    ensures var m := Move([ClaimOp(limit, name, now)], [], Holding(ClaimedIds(f.queue, limit, now)));
      PhaseOk(Apply(f, w, m).queue, Apply(f, w, m).ledger, m.phase)
  {
    ClaimedAreKnown(f.queue, limit, name, now);
    hide ClaimedIds, JobRuns.Run;
  }

  lemma PhasesSurvive(f: Fleet, after: Fleet)
    requires Inv(f) && after.workers == f.workers && Extends(f.queue, f.ledger, after.queue, after.ledger)
    ensures forall w: WorkerId :: w in after.workers ==> PhaseOk(after.queue, after.ledger, after.workers[w])
  {
    hide Sound, PhaseOk, Extends;
    forall w: WorkerId | w in after.workers ensures PhaseOk(after.queue, after.ledger, after.workers[w]) {
      PhaseSurvives(f.queue, f.ledger, after.queue, after.ledger, f.workers[w]);
    }
  }

  lemma {:induction false} RunKeepsInv(f: Fleet, trace: seq<Event>)
    requires Inv(f)
    ensures Inv(Run(f, trace))
    decreases |trace|
  {
    hide Inv, Step;
    if trace != [] {
      StepKeepsInv(f, trace[0]);
      RunKeepsInv(Step(f, trace[0]), trace[1..]);
    }
  }

  // ---------------------------------------------------------------------------------------------
  // What holds in every run
  // ---------------------------------------------------------------------------------------------

  /**
   * Queue and ledger agree, with no assumption about anyone: whatever workers run the script, in
   * whatever interleaving, killed between any two calls, and whatever other calls are made, each
   * SUCCEEDED job names an invocation that SUCCEEDED for its task and version on the trinity-core
   * backend, each key names one job, and each subject has at most one active invocation.
   */
  lemma AgreementInEveryRun(trace: seq<Event>)
    ensures var f := Run(EMPTY, trace);
      QueueInv(f.queue) && Invocations.LedgerInv(f.ledger) && Worker.Agree(f.queue, f.ledger)
  {
    hide Run;
    RunKeepsInv(EMPTY, trace);
  }

  /** The queue calls of a run, in order. */
  function QueueOps(f: Fleet, trace: seq<Event>): seq<Op>
    decreases |trace|
  {
    if trace == [] then [] else StepOps(f, trace[0]) + QueueOps(Step(f, trace[0]), trace[1..])
  }

  function StepOps(f: Fleet, e: Event): seq<Op> {
    match e
    case Claim(w, limit, name, now) => if PhaseOf(f, w).Idle? then [ClaimOp(limit, name, now)] else []
    case Advance(w, env) => Next(f, w, env).queueOps
    case Killed(_) => []
    case QueueCall(op) => if op.SucceedOp? then [] else [op]
    case LedgerCall(_) => []
  }

  lemma StepIsQueueRun(f: Fleet, e: Event)
    ensures Step(f, e).queue == JobRuns.Run(f.queue, StepOps(f, e))
  {
    hide JobRuns.Step, Next;
    if e.QueueCall? { Worker.RunSingle(f.queue, e.op); }
  }

  /** A fleet's queue is a run of queue calls, so every theorem about those runs applies to it. */
  lemma {:induction false} FleetIsQueueRun(f: Fleet, trace: seq<Event>)
    ensures Run(f, trace).queue == JobRuns.Run(f.queue, QueueOps(f, trace))
    decreases |trace|
  {
    hide Step, StepOps, JobRuns.Run;
    if trace == [] {
      NoOps(f.queue);
    } else {
      StepIsQueueRun(f, trace[0]);
      FleetIsQueueRun(Step(f, trace[0]), trace[1..]);
      Worker.QueueRunsCompose(f.queue, StepOps(f, trace[0]), QueueOps(Step(f, trace[0]), trace[1..]));
    }
  }

  /**
   * A killed worker makes no further call, and the job it was running is not lost: once its claim is
   * over 600 seconds old, the next recovery makes it claimable again while budget is left and
   * finishes it otherwise.
   */
  lemma KilledJobComesBack(f: Fleet, w: WorkerId, env: Worker.JobEnv, job: Id, now: Time)
    requires job < |f.queue.rows| && f.queue.rows[job].status == InProgress
    requires f.queue.rows[job].claimedAt.Some? && now - f.queue.rows[job].claimedAt.value > 600_000_000
    ensures var dead := Run(f, [Killed(w), Advance(w, env)]);
      && dead.queue == f.queue && dead.ledger == f.ledger && PhaseOf(dead, w) == Idle
      && (forall v: WorkerId :: v != w ==> PhaseOf(dead, v) == PhaseOf(f, v))
    ensures var rows := Run(f, [Killed(w), Advance(w, env), QueueCall(RecoverOp(600_000_000, now))]).queue.rows;
      && job < |rows|
      && rows[job].status ==
         if f.queue.rows[job].attemptCount < f.queue.rows[job].what.maxAttempts then FailedRetryable else FailedTerminal
  {
    hide JobRuns.Step;
    var dead := Step(Step(f, Killed(w)), Advance(w, env));
    DeadTakesNoStep(f, w, env);
    RunOfTwo(f, Killed(w), Advance(w, env));
    RunOfThree(f, Killed(w), Advance(w, env), QueueCall(RecoverOp(600_000_000, now)));
    RecoveryTable(f.queue, now, job);
    RecoverIsStep(f.queue, now);
  }

  lemma RecoverIsStep(q: Queue, now: Time)
    ensures JobRuns.Step(q, RecoverOp(600_000_000, now)) == Recover(q, STALE_THRESHOLD, now)
  {}

  lemma DeadTakesNoStep(f: Fleet, w: WorkerId, env: Worker.JobEnv)
    ensures var dead := Step(Step(f, Killed(w)), Advance(w, env));
      && dead.queue == f.queue && dead.ledger == f.ledger && dead.workers == f.workers[w := Idle]
  {}

  lemma RunOfTwo(f: Fleet, a: Event, b: Event)
    ensures Run(f, [a, b]) == Step(Step(f, a), b)
  {
    hide Step;
    assert [a, b][1..] == [b] && [b][1..] == [];
    assert Run(Step(f, a), [b]) == Run(Step(Step(f, a), b), []);
  }

  lemma RunOfThree(f: Fleet, a: Event, b: Event, c: Event)
    ensures Run(f, [a, b, c]) == Step(Step(Step(f, a), b), c)
  {
    hide Step;
    assert [a, b, c][1..] == [b, c];
    RunOfTwo(Step(f, a), b, c);
  }

  lemma NoOps(q: Queue)
    ensures JobRuns.Run(q, []) == q
  {}

  /** In particular no fleet dispatches a job more often than its budget, however its workers die. */
  lemma BudgetInEveryRun(trace: seq<Event>, id: Id)
    requires id < |Run(EMPTY, trace).queue.rows|
    ensures var job := Run(EMPTY, trace).queue.rows[id];
      Dispatches(Jobs.EMPTY, QueueOps(EMPTY, trace), id) == job.attemptCount <= job.what.maxAttempts
  {
    hide Run, QueueOps, Dispatches;
    FleetIsQueueRun(EMPTY, trace);
    RetryBudget(QueueOps(EMPTY, trace), id);
  }

  // ---------------------------------------------------------------------------------------------
  // A worker alone does what the script does
  // ---------------------------------------------------------------------------------------------

  function Steps(f: Fleet, w: WorkerId, env: Worker.JobEnv, n: nat): Fleet
    decreases n
  {
    if n == 0 then f else Steps(Step(f, Advance(w, env)), w, env, n - 1)
  }

  function At(q: Queue, l: Invocations.Ledger, workers: map<WorkerId, Phase>, w: WorkerId, p: Phase): Fleet {
    Fleet(q, l, workers[w := p])
  }

  /** A step that makes one ledger call or none. */
  lemma LedgerMove(q: Queue, l: Invocations.Ledger, workers: map<WorkerId, Phase>, w: WorkerId, p: Phase, env: Worker.JobEnv)
    requires !p.Idle? && !p.Holding? && !p.Answered?
    ensures var f := At(q, l, workers, w, p); var m := Next(f, w, env);
      && m.queueOps == [] && |m.ledgerOps| <= 1
      && Step(f, Advance(w, env)) ==
         At(q, if m.ledgerOps == [] then l else Invocations.Step(l, m.ledgerOps[0]), workers, w, m.phase)
  {
    hide Invocations.Step, Invocations.Create, Invocations.MoveRow;
    var f := At(q, l, workers, w, p);
    var m := Next(f, w, env);
    if m.ledgerOps != [] { Worker.RunOne(l, m.ledgerOps[0]); }
    assert workers[w := p][w := m.phase] == workers[w := m.phase];
  }

  /** From RUNNING to the answer: one step. */
  lemma AnswerAlone(q: Queue, workers: map<WorkerId, Phase>, w: WorkerId, job: Id, rest: seq<Id>, id: Id,
                    env: Worker.JobEnv, world: Lifecycle.World, r: Invocations.Request, root: Id)
    ensures var (after, result) := if env.gateway.promptFound then Lifecycle.Conclude(world, id, r, root, env.gateway)
                                   else (world, Err(NotFoundError));
      Step(At(q, world.ledger, workers, w, Calling(job, rest, id)), Advance(w, env)) ==
      At(q, after.ledger, workers, w, Answered(job, rest, result))
  {
    hide Invocations.MoveRow;
    LedgerMove(q, world.ledger, workers, w, Calling(job, rest, id), env);
  }

  /** From the created row to the answer: one or two steps. */
  lemma LiveAlone(q: Queue, workers: map<WorkerId, Phase>, w: WorkerId, job: Id, rest: seq<Id>, id: Id,
                  env: Worker.JobEnv, world: Lifecycle.World, r: Invocations.Request)
    returns (n: nat)
    requires env.gateway.meanwhile == []
    ensures var (after, result) := Lifecycle.Live(world, id, r, env.gateway);
      Steps(At(q, world.ledger, workers, w, Requested(job, rest, id)), w, env, n) ==
      At(q, after.ledger, workers, w, Answered(job, rest, result))
  {
    hide Invocations.MoveRow, Lifecycle.Conclude, Step;
    var g := env.gateway;
    var f := At(q, world.ledger, workers, w, Requested(job, rest, id));
    LedgerMove(q, world.ledger, workers, w, Requested(job, rest, id), env);
    var (l, running) := Invocations.MoveRow(world.ledger, id, Invocations.Running, Invocations.NO_OUTCOME, g.now, g.runningOk);
    var log := world.log + [Lifecycle.RequestedEvent(id, r, g.now)];
    assert Invocations.Run(l, []) == l && Lifecycle.RunEvents(l, []) == [] && log + [] == log;
    if running.Err? {
      n := 1;
    } else {
      n := 2;
      AnswerAlone(q, workers, w, job, rest, id, env, Lifecycle.World(l, log), r, |world.log|);
    }
    assert Steps(f, w, env, n) == Steps(Step(f, Advance(w, env)), w, env, n - 1);
  }

  /** From the started job to the answer: what `run_background_task` does, in at most three steps. */
  lemma GatewayAlone(s: Worker.Shop, workers: map<WorkerId, Phase>, w: WorkerId, job: Id, rest: seq<Id>, env: Worker.JobEnv)
    returns (n: nat)
    requires env.gateway.meanwhile == []
    ensures var (after, result) := Worker.Gateway(s, job, env);
      Steps(At(s.queue, s.ledger, workers, w, Started(job, rest)), w, env, n) ==
      At(s.queue, after.ledger, workers, w, Answered(job, rest, result))
  {
    hide Invocations.Create, Lifecycle.Live, Step;
    var g, f := env.gateway, At(s.queue, s.ledger, workers, w, Started(job, rest));
    LedgerMove(s.queue, s.ledger, workers, w, Started(job, rest), env);
    n := 1;
    if g.task.Some? && g.task.value.role == "BACKGROUND" && g.task.value.inputMatchesSchema {
      var r := Lifecycle.RequestOf(Worker.CallOf(RowAt(s.queue, job).what), g.task.value);
      var (l, created, events) := Invocations.Create(s.ledger, r, g.now, g.verdicts);
      if created.Ok? {
        var m := LiveAlone(s.queue, workers, w, job, rest, created.value, env, Lifecycle.World(l, s.log + events), r);
        n := m + 1;
      }
    }
    assert Steps(f, w, env, n) == Steps(Step(f, Advance(w, env)), w, env, n - 1);
  }

  lemma {:induction false} StepsCompose(f: Fleet, w: WorkerId, env: Worker.JobEnv, a: nat, b: nat)
    ensures Steps(f, w, env, a + b) == Steps(Steps(f, w, env, a), w, env, b)
    decreases a
  {
    hide Step;
    if a > 0 { StepsCompose(Step(f, Advance(w, env)), w, env, a - 1, b); }
  }

  /**
   * A worker that nobody disturbs takes its next claimed job through exactly what the script's own
   * `_process_one` does to queue and ledger; it then goes on to the rest, or is dead if that raised.
   */
  lemma AloneIsProcessOne(s: Worker.Shop, workers: map<WorkerId, Phase>, w: WorkerId, job: Id, rest: seq<Id>,
                          env: Worker.JobEnv)
    returns (n: nat)
    requires env.gateway.meanwhile == [] && env.others == []
    ensures var (after, outcome) := Worker.ProcessOne(s, job, env);
      Steps(At(s.queue, s.ledger, workers, w, Holding([job] + rest)), w, env, n) ==
      At(after.queue, after.ledger, workers, w, if outcome == Worker.Crashed then Idle else Holding(rest))
  {
    hide Step, JobRuns.Step, Worker.Gateway, Worker.ClosingOps, Worker.Classify;
    var f := At(s.queue, s.ledger, workers, w, Holding([job] + rest));
    StartAlone(s.queue, s.ledger, workers, w, job, rest, env);
    if Starts(s.queue, StartOp(job, env.startedAt), job) == 0 {
      n := 1;
      assert Steps(f, w, env, 1) == Steps(Step(f, Advance(w, env)), w, env, 0);
    } else {
      var q := JobRuns.Step(s.queue, StartOp(job, env.startedAt));
      StartKeepsWhat(s.queue, job, env.startedAt);
      var (world, result) := Worker.Gateway(s, job, env);
      var m := GatewayAlone(s.(queue := q), workers, w, job, rest, env);
      GatewayReadsWhat(s, q, job, env);
      var f1 := At(q, world.ledger, workers, w, Answered(job, rest, result));
      CloseAlone(q, world.ledger, workers, w, job, rest, result, env);
      n := 1 + (m + 1);
      assert Steps(f, w, env, n) == Steps(Step(f, Advance(w, env)), w, env, m + 1);
      StepsCompose(Step(f, Advance(w, env)), w, env, m, 1);
      assert Steps(f1, w, env, 1) == Steps(Step(f1, Advance(w, env)), w, env, 0);
      NoOps(q);
    }
  }

  lemma StartAlone(q: Queue, l: Invocations.Ledger, workers: map<WorkerId, Phase>, w: WorkerId, job: Id, rest: seq<Id>,
                   env: Worker.JobEnv)
    ensures var op := StartOp(job, env.startedAt); var started := Starts(q, op, job) == 1;
      && Step(At(q, l, workers, w, Holding([job] + rest)), Advance(w, env)) ==
         At(JobRuns.Step(q, op), l, workers, w, if started then Started(job, rest) else Idle)
      && (!started ==> JobRuns.Step(q, op) == q)
  {
    QueueNoOps(q, StartOp(job, env.startedAt));
    assert ([job] + rest)[1..] == rest;
    var p := if Starts(q, StartOp(job, env.startedAt), job) == 1 then Started(job, rest) else Idle;
    assert workers[w := Holding([job] + rest)][w := p] == workers[w := p];
  }

  lemma QueueNoOps(q: Queue, op: Op)
    ensures JobRuns.Run(q, [op]) == JobRuns.Step(q, op)
  {
    Worker.RunSingle(q, op);
  }

  lemma StartKeepsWhat(q: Queue, job: Id, now: Time)
    requires job < |q.rows|
    ensures job < |JobRuns.Step(q, StartOp(job, now)).rows| && JobRuns.Step(q, StartOp(job, now)).rows[job].what == q.rows[job].what
  {
    JobRuns.StepMovesRow(q, StartOp(job, now), job);
  }

  lemma GatewayReadsWhat(s: Worker.Shop, q: Queue, job: Id, env: Worker.JobEnv)
    requires job < |s.queue.rows| && job < |q.rows| && q.rows[job].what == s.queue.rows[job].what
    ensures Worker.Gateway(s.(queue := q), job, env) == Worker.Gateway(s, job, env)
  {
    hide Lifecycle.Background;
  }

  lemma CloseAlone(q: Queue, l: Invocations.Ledger, workers: map<WorkerId, Phase>, w: WorkerId, job: Id, rest: seq<Id>,
                   result: Result<Id, Error>, env: Worker.JobEnv)
    ensures var ops := Worker.ClosingOps(l, result, job, env.closedAt);
      && Step(At(q, l, workers, w, Answered(job, rest, result)), Advance(w, env)) ==
         At(JobRuns.Run(q, ops), l, workers, w,
            if ops != [] && job < |q.rows| && q.rows[job].status == InProgress then Holding(rest) else Idle)
      && (ops == [] <==> Worker.Classify(l, result) == Worker.Crashed)
  {
    hide JobRuns.Run, JobRuns.Step;
    var p := Close(At(q, l, workers, w, Answered(job, rest, result)), job, rest, result, env.closedAt).phase;
    assert workers[w := Answered(job, rest, result)][w := p] == workers[w := p];
    assert Invocations.Run(l, []) == l;
  }
}
