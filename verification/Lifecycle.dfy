/**
 * The two callers that live an invocation end to end: the background gateway
 * (ai/gateway/background.py) and the operator orchestrator (agent/claude_code/orchestrator.py).
 */
module Lifecycle {
  import opened Common
  import opened Audit
  import opened Invocations

  /** The ledger and the shared audit log. */
  datatype World = World(ledger: Ledger, log: seq<Event>)

  // ---------------------------------------------------------------------------------------------
  // Other callers, at work on the same ledger while a provider call is outstanding
  // ---------------------------------------------------------------------------------------------

  function StepEvents(l: Ledger, op: Op): seq<Event> {
    match op
    case CreateOp(r, now, v) => Create(l, r, now, v).2
    case TransitionOp(_, _, _, _, _) => []
    case FindOp(s, now, contractOk) => FindActive(l, s, now, contractOk).2
  }

  function RunEvents(l: Ledger, ops: seq<Op>): seq<Event>
    decreases |ops|
  {
    if ops == [] then [] else StepEvents(l, ops[0]) + RunEvents(Step(l, ops[0]), ops[1..])
  }

  method OtherCaller(repo: InvocationRepository, op: Op)
    requires repo.Valid()
    modifies repo, repo.audit
    ensures repo.Valid()
    ensures repo.Snapshot() == Step(old(repo.Snapshot()), op)
    ensures repo.audit.events == old(repo.audit.events) + StepEvents(old(repo.Snapshot()), op)
  {
    match op {
      case CreateOp(r, now, v) => var _ := repo.CreateInvocation(r, now, v);
      case TransitionOp(id, to, outcome, now, contractOk) =>
        var _ := repo.TransitionStatus(id, to, outcome, now, contractOk);
      case FindOp(s, now, contractOk) => var _ := repo.FindActiveInvocation(s, now, contractOk);
    }
  }

  method OtherCallers(repo: InvocationRepository, ops: seq<Op>)
    requires repo.Valid()
    modifies repo, repo.audit
    ensures repo.Valid()
    ensures repo.Snapshot() == Run(old(repo.Snapshot()), ops)
    ensures repo.audit.events == old(repo.audit.events) + RunEvents(old(repo.Snapshot()), ops)
    decreases |ops|
  {
    hide Step, StepEvents, LedgerInv;
    if ops != [] {
      OtherCaller(repo, ops[0]);
      OtherCallers(repo, ops[1..]);
    }
  }

  // ---------------------------------------------------------------------------------------------
  // Events
  // ---------------------------------------------------------------------------------------------

  function EventFor(eventType: string, id: Id, r: Request, cause: Option<Id>, payload: map<string, Datum>, now: Time): Event {
    Event(eventType, now, r.actorType, r.actorId, "AIInvocation", id, r.correlationId, cause, payload)
  }

  function RequestedEvent(id: Id, r: Request, now: Time): Event {
    EventFor("AI_INVOCATION_REQUESTED", id, r, None,
             map["task_id" := Text(r.taskId), "task_version" := Number(r.taskVersion)], now)
  }

  function SucceededEvent(id: Id, r: Request, cause: Id, now: Time): Event {
    EventFor("AI_INVOCATION_SUCCEEDED", id, r, Some(cause), map["task_id" := Text(r.taskId)], now)
  }

  function FailedEvent(id: Id, r: Request, cause: Id, code: string, now: Time): Event {
    EventFor("AI_INVOCATION_FAILED", id, r, Some(cause), map["error_code" := Text(code)], now)
  }

  function RejectedEvent(id: Id, r: Request, cause: Id, code: string, now: Time): Event {
    EventFor("AI_OUTPUT_REJECTED", id, r, Some(cause), map["error_code" := Text(code)], now)
  }

  // ---------------------------------------------------------------------------------------------
  // The background gateway
  // ---------------------------------------------------------------------------------------------

  datatype Task = Task(role: string, inputMatchesSchema: bool, preferredCapability: string)

  /** The arguments of `run_background_task`. */
  datatype Call = Call(
    taskId: string,
    taskVersion: int,
    inputReferences: map<string, Datum>,
    actorType: string,
    actorId: string,
    correlationId: string,
    aliasOverride: Option<string>,
    inferenceBackend: string)

  datatype Provider = ProviderOk | ProviderError(status: string)

  datatype Reply = NotJson(content: string) | Json(content: string, matchesSchema: bool)

  /**
   * What the outside world answers during one background call.  `promptFound` is false when the
   * lookup of the prompt version or the load of its asset raises.
   */
  datatype Env = Env(
    task: Option<Task>,
    verdicts: Verdicts,
    runningOk: bool,
    promptFound: bool,
    meanwhile: seq<Op>,
    provider: Provider,
    reply: Reply,
    finalOk: bool,
    now: Time)

  function RequestOf(c: Call, t: Task): Request {
    var alias := if c.aliasOverride.Some? then c.aliasOverride.value else t.preferredCapability;
    Request(c.taskId, c.taskVersion, "BACKGROUND", "LITELLM", Some(alias), c.inferenceBackend, c.inputReferences,
            c.actorType, c.actorId, c.correlationId)
  }

  predicate OutputAccepted(env: Env) {
    env.provider == ProviderOk && env.reply.Json? && env.reply.matchesSchema
  }

  function RejectionCode(reply: Reply): string {
    if reply.NotJson? then "OUTPUT_NOT_JSON" else "OUTPUT_SCHEMA_INVALID"
  }

  function RejectionOutcome(reply: Reply): Outcome {
    Outcome(Some(RejectionCode(reply)), Some(ValidationResult(false)),
            if reply.NotJson? then None else Some(reply.content), false)
  }

  /** The terminal status and fields that the provider's answer leads to. */
  function Target(env: Env): Status {
    if OutputAccepted(env) then Succeeded else Failed
  }

  function FinalOutcome(env: Env): Outcome {
    match env.provider
    case ProviderError(status) => Outcome(Some("LITELLM_" + status), None, None, false)
    case ProviderOk =>
      if OutputAccepted(env) then Outcome(None, Some(ValidationResult(true)), Some(env.reply.content), false)
      else RejectionOutcome(env.reply)
  }

  /** The events that close the chain; `root` is the request event, `next` the log length. */
  function FinalEvents(env: Env, id: Id, r: Request, root: Id, next: Id): seq<Event> {
    match env.provider
    case ProviderError(status) => [FailedEvent(id, r, root, "LITELLM_" + status, env.now)]
    case ProviderOk =>
      if OutputAccepted(env) then [SucceededEvent(id, r, root, env.now)]
      else [RejectedEvent(id, r, root, RejectionCode(env.reply), env.now),
            FailedEvent(id, r, next, RejectionCode(env.reply), env.now)]
  }

  /** From the answered provider call to the end. */
  function Conclude(w: World, id: Id, r: Request, root: Id, env: Env): (World, Result<Id, Error>) {
    var (l, moved) := MoveRow(w.ledger, id, Target(env), FinalOutcome(env), env.now, env.finalOk);
    if moved.Err? then (World(l, w.log), Err(moved.error))
    else (World(l, w.log + FinalEvents(env, id, r, root, |w.log|)), Ok(id))
  }

  /** From the created row to the end. */
  function Live(w: World, id: Id, r: Request, env: Env): (World, Result<Id, Error>) {
    var root := |w.log|;
    var log := w.log + [RequestedEvent(id, r, env.now)];
    var (l, running) := MoveRow(w.ledger, id, Running, NO_OUTCOME, env.now, env.runningOk);
    if running.Err? then (World(l, log), Err(running.error))
    else if !env.promptFound then (World(l, log), Err(NotFoundError))
    else Conclude(World(Run(l, env.meanwhile), log + RunEvents(l, env.meanwhile)), id, r, root, env)
  }

  function Background(w: World, c: Call, env: Env): (World, Result<Id, Error>) {
    if env.task == None then (w, Err(NotFoundError))
    else if env.task.value.role != "BACKGROUND" || !env.task.value.inputMatchesSchema then (w, Err(ValidationError))
    else
      var r := RequestOf(c, env.task.value);
      var (l, created, events) := Create(w.ledger, r, env.now, env.verdicts);
      if created.Err? then (World(l, w.log + events), Err(created.error))
      else Live(World(l, w.log + events), created.value, r, env)
  }

  method RejectOutput(repo: InvocationRepository, id: Id, r: Request, root: Id, env: Env) returns (result: Result<Id, Error>)
    requires repo.Valid() && r.actorType in ACTOR_TYPES
    requires env.provider == ProviderOk && !OutputAccepted(env)
    modifies repo, repo.audit
    ensures repo.Valid()
    ensures (World(repo.Snapshot(), repo.audit.events), result) ==
            Conclude(World(old(repo.Snapshot()), old(repo.audit.events)), id, r, root, env)
  {
    var code := RejectionCode(env.reply);
    var moved := repo.TransitionStatus(id, Failed, RejectionOutcome(env.reply), env.now, env.finalOk);
    if moved.Err? { return Err(moved.error); }
    ghost var log := repo.audit.events;
    var rejected := repo.audit.RecordAuditEvent(RejectedEvent(id, r, root, code, env.now), true);
    var _ := repo.audit.RecordAuditEvent(FailedEvent(id, r, rejected.value, code, env.now), true);
    assert repo.audit.events == log + FinalEvents(env, id, r, root, |log|);
    result := Ok(id);
  }

  method ConcludeCall(repo: InvocationRepository, id: Id, r: Request, root: Id, env: Env) returns (result: Result<Id, Error>)
    requires repo.Valid() && r.actorType in ACTOR_TYPES
    modifies repo, repo.audit
    ensures repo.Valid()
    ensures (World(repo.Snapshot(), repo.audit.events), result) ==
            Conclude(World(old(repo.Snapshot()), old(repo.audit.events)), id, r, root, env)
  {
    if env.provider.ProviderError? {
      var code := "LITELLM_" + env.provider.status;
      var moved := repo.TransitionStatus(id, Failed, Outcome(Some(code), None, None, false), env.now, env.finalOk);
      if moved.Err? { return Err(moved.error); }
      var _ := repo.audit.RecordAuditEvent(FailedEvent(id, r, root, code, env.now), true);
      return Ok(id);
    }
    if env.reply.NotJson? || !env.reply.matchesSchema {
      result := RejectOutput(repo, id, r, root, env);
      return;
    }
    var outcome := Outcome(None, Some(ValidationResult(true)), Some(env.reply.content), false);
    var moved := repo.TransitionStatus(id, Succeeded, outcome, env.now, env.finalOk);
    if moved.Err? { return Err(moved.error); }
    var _ := repo.audit.RecordAuditEvent(SucceededEvent(id, r, root, env.now), true);
    result := Ok(id);
  }

  method RunBackgroundTask(repo: InvocationRepository, c: Call, env: Env) returns (result: Result<Id, Error>)
    requires repo.Valid()
    modifies repo, repo.audit
    ensures repo.Valid()
    ensures (World(repo.Snapshot(), repo.audit.events), result) ==
            Background(World(old(repo.Snapshot()), old(repo.audit.events)), c, env)
  {
    if env.task == None { return Err(NotFoundError); }
    if env.task.value.role != "BACKGROUND" { return Err(ValidationError); }
    if !env.task.value.inputMatchesSchema { return Err(ValidationError); }
    var r := RequestOf(c, env.task.value);
    var created := repo.CreateInvocation(r, env.now, env.verdicts);
    if created.Err? { return Err(created.error); }
    var requested := repo.audit.RecordAuditEvent(RequestedEvent(created.value, r, env.now), true);
    var running := repo.TransitionStatus(created.value, Running, NO_OUTCOME, env.now, env.runningOk);
    if running.Err? { return Err(running.error); }
    if !env.promptFound { return Err(NotFoundError); }
    OtherCallers(repo, env.meanwhile);
    result := ConcludeCall(repo, created.value, r, requested.value, env);
  }

  // ---------------------------------------------------------------------------------------------
  // The operator orchestrator
  // ---------------------------------------------------------------------------------------------

  datatype Message = Message(
    blank: bool,
    inputReferences: map<string, Datum>,
    actorType: string,
    actorId: string,
    correlationId: string)

  datatype Runner = RunnerOk(text: string, valid: bool) | RunnerTimeout | RunnerError(code: string)

  datatype OperatorEnv = OperatorEnv(
    verdicts: Verdicts,
    runningOk: bool,
    contextFound: bool,
    meanwhile: seq<Op>,
    runner: Runner,
    finalOk: bool,
    now: Time)

  function OperatorRequest(m: Message): Request {
    Request("ASK_BAGMAN", 1, "OPERATOR", "ANTHROPIC", None, "MAC_LOCAL", m.inputReferences,
            m.actorType, m.actorId, m.correlationId)
  }

  const INVALID_OUTPUT := "OUTPUT_SCHEMA_VALIDATION_FAILED"

  function RunnerCode(runner: Runner): string {
    match runner
    case RunnerTimeout => "CLAUDE_CODE_TIMEOUT"
    case RunnerError(code) => code
    case RunnerOk(_, _) => INVALID_OUTPUT
  }

  function OperatorTarget(runner: Runner): Status {
    match runner
    case RunnerTimeout => TimedOut
    case RunnerError(_) => Failed
    case RunnerOk(_, valid) => if valid then Succeeded else Failed
  }

  function OperatorOutcome(runner: Runner): Outcome {
    match runner
    case RunnerOk(text, true) => Outcome(None, Some(ValidationResult(true)), Some(text), false)
    case RunnerOk(text, false) => Outcome(Some(INVALID_OUTPUT), Some(ValidationResult(false)), Some(text), false)
    case _ => Outcome(Some(RunnerCode(runner)), None, None, false)
  }

  /** The rejection is recorded before the row moves, so it survives a failing transition. */
  function EventsBeforeMove(runner: Runner, id: Id, r: Request, root: Id, now: Time): seq<Event> {
    if runner.RunnerOk? && !runner.valid then [RejectedEvent(id, r, root, INVALID_OUTPUT, now)] else []
  }

  function EventsAfterMove(runner: Runner, id: Id, r: Request, root: Id, now: Time): seq<Event> {
    if runner.RunnerOk? && runner.valid then [SucceededEvent(id, r, root, now)]
    else [FailedEvent(id, r, root, RunnerCode(runner), now)]
  }

  function OperatorConclude(w: World, id: Id, r: Request, root: Id, env: OperatorEnv): (World, Result<Id, Error>) {
    var log := w.log + EventsBeforeMove(env.runner, id, r, root, env.now);
    var (l, moved) := MoveRow(w.ledger, id, OperatorTarget(env.runner), OperatorOutcome(env.runner), env.now, env.finalOk);
    if moved.Err? then (World(l, log), Err(moved.error))
    else (World(l, log + EventsAfterMove(env.runner, id, r, root, env.now)), Ok(id))
  }

  function OperatorLive(w: World, id: Id, r: Request, env: OperatorEnv): (World, Result<Id, Error>) {
    var root := |w.log|;
    var log := w.log + [RequestedEvent(id, r, env.now)];
    var (l, running) := MoveRow(w.ledger, id, Running, NO_OUTCOME, env.now, env.runningOk);
    if running.Err? then (World(l, log), Err(running.error))
    else if !env.contextFound then (World(l, log), Err(NotFoundError))
    else OperatorConclude(World(Run(l, env.meanwhile), log + RunEvents(l, env.meanwhile)), id, r, root, env)
  }

  function Operator(w: World, m: Message, env: OperatorEnv): (World, Result<Id, Error>) {
    if m.blank then (w, Err(ValidationError))
    else
      var r := OperatorRequest(m);
      var (l, created, events) := Create(w.ledger, r, env.now, env.verdicts);
      if created.Err? then (World(l, w.log + events), Err(created.error))
      else OperatorLive(World(l, w.log + events), created.value, r, env)
  }

  method ConcludeOperator(repo: InvocationRepository, id: Id, r: Request, root: Id, env: OperatorEnv)
    returns (result: Result<Id, Error>)
    requires repo.Valid() && r.actorType in ACTOR_TYPES
    modifies repo, repo.audit
    ensures repo.Valid()
    ensures (World(repo.Snapshot(), repo.audit.events), result) ==
            OperatorConclude(World(old(repo.Snapshot()), old(repo.audit.events)), id, r, root, env)
  {
    var target, outcome := OperatorTarget(env.runner), OperatorOutcome(env.runner);
    ghost var log := repo.audit.events;
    if env.runner.RunnerOk? && !env.runner.valid {
      var _ := repo.audit.RecordAuditEvent(RejectedEvent(id, r, root, INVALID_OUTPUT, env.now), true);
    }
    assert repo.audit.events == log + EventsBeforeMove(env.runner, id, r, root, env.now);
    var moved := repo.TransitionStatus(id, target, outcome, env.now, env.finalOk);
    if moved.Err? { return Err(moved.error); }
    if env.runner.RunnerOk? && env.runner.valid {
      var _ := repo.audit.RecordAuditEvent(SucceededEvent(id, r, root, env.now), true);
    } else {
      var _ := repo.audit.RecordAuditEvent(FailedEvent(id, r, root, RunnerCode(env.runner), env.now), true);
    }
    result := Ok(id);
  }

  method HandleOperatorMessage(repo: InvocationRepository, m: Message, env: OperatorEnv) returns (result: Result<Id, Error>)
    requires repo.Valid()
    modifies repo, repo.audit
    ensures repo.Valid()
    ensures (World(repo.Snapshot(), repo.audit.events), result) ==
            Operator(World(old(repo.Snapshot()), old(repo.audit.events)), m, env)
  {
    if m.blank { return Err(ValidationError); }
    var r := OperatorRequest(m);
    var created := repo.CreateInvocation(r, env.now, env.verdicts);
    if created.Err? { return Err(created.error); }
    var requested := repo.audit.RecordAuditEvent(RequestedEvent(created.value, r, env.now), true);
    var running := repo.TransitionStatus(created.value, Running, NO_OUTCOME, env.now, env.runningOk);
    if running.Err? { return Err(running.error); }
    if !env.contextFound { return Err(NotFoundError); }
    OtherCallers(repo, env.meanwhile);
    result := ConcludeOperator(repo, created.value, r, requested.value, env);
  }

  // ---------------------------------------------------------------------------------------------
  // What holds whenever a call returns
  // ---------------------------------------------------------------------------------------------

  /** Every event belongs to invocation `id`, carries its correlation id, and is not a root. */
  predicate SameInvocation(events: seq<Event>, id: Id, correlationId: string) {
    forall i :: 0 <= i < |events| ==>
      events[i].subjectType == "AIInvocation" && events[i].subjectId == id
      && events[i].correlationId == correlationId && events[i].causationId.Some?
  }

  /** The permitted endings of a chain rooted at event `root`, appended at log position `at`. */
  predicate PermittedEnding(events: seq<Event>, root: Id, at: Id, failureCausedByRejection: bool) {
    || (|events| == 1 && events[0].eventType == "AI_INVOCATION_SUCCEEDED" && events[0].causationId == Some(root))
    || (|events| == 1 && events[0].eventType == "AI_INVOCATION_FAILED" && events[0].causationId == Some(root))
    || (|events| == 2 && events[0].eventType == "AI_OUTPUT_REJECTED" && events[0].causationId == Some(root)
        && events[1].eventType == "AI_INVOCATION_FAILED"
        && events[1].causationId == Some(if failureCausedByRejection then at else root))
  }

  /** The row is terminal, keeps its request, and its subject slot is free. */
  predicate Settled(l: Ledger, id: Id, r: Request) {
    && id < |l.rows| && Terminal(l.rows[id].status) && l.rows[id].what == r
    && SubjectOf(r) !in l.active
  }

  /** The part of the log that a returned call wrote: root at `root`, ending from `at` on. */
  predicate Chained(log: seq<Event>, id: Id, r: Request, root: Id, at: Id, failureCausedByRejection: bool) {
    && root < at < |log|
    && log[root].eventType == "AI_INVOCATION_REQUESTED" && log[root].causationId == None
    && log[root].subjectId == id && log[root].correlationId == r.correlationId
    && (forall i :: root < i < at ==> log[i].subjectId != id)
    && SameInvocation(log[at..], id, r.correlationId)
    && PermittedEnding(log[at..], root, at, failureCausedByRejection)
  }

  lemma {:induction false} RunKeepsIdentity(l: Ledger, ops: seq<Op>, id: Id)
    requires id < |l.rows|
    ensures id < |Run(l, ops).rows| && Run(l, ops).rows[id].what == l.rows[id].what
    decreases |ops|
  {
    if ops != [] {
      StepMovesRow(l, ops[0], id);
      RunKeepsIdentity(Step(l, ops[0]), ops[1..], id);
    }
  }

  /** A successful move to a terminal status settles the row. */
  lemma MoveSettles(l: Ledger, id: Id, to: Status, outcome: Outcome, now: Time, contractOk: bool)
    requires LedgerInv(l) && id < |l.rows| && Terminal(to)
    requires MoveRow(l, id, to, outcome, now, contractOk).1.Ok?
    ensures Settled(MoveRow(l, id, to, outcome, now, contractOk).0, id, l.rows[id].what)
    ensures var row := MoveRow(l, id, to, outcome, now, contractOk).0.rows[id]; row.status == to && row.completedAt == Some(now)
  {
    var r := Transition(l.rows[id], to, outcome, now, contractOk);
    StoreKeepsInv(l, id, r.value);
  }

  /** A creation that succeeds appends one requested row and leaves the ledger consistent. */
  lemma CreatedRow(l: Ledger, r: Request, now: Time, v: Verdicts)
    requires LedgerInv(l) && Create(l, r, now, v).1.Ok?
    ensures var (l', id, _) := Create(l, r, now, v);
      LedgerInv(l') && id.value == |l.rows| == |l'.rows| - 1 && l'.rows[id.value] == NewInvocation(r, now)
  {
    CreateKeepsInv(l, r, now, v);
  }

  /** Running the row and letting other callers work keeps the ledger consistent and the request in place. */
  lemma RunningRow(l: Ledger, id: Id, now: Time, ok: bool, meanwhile: seq<Op>)
    requires LedgerInv(l) && id < |l.rows|
    ensures var l1 := MoveRow(l, id, Running, NO_OUTCOME, now, ok).0;
      LedgerInv(Run(l1, meanwhile)) && id < |Run(l1, meanwhile).rows|
      && Run(l1, meanwhile).rows[id].what == l.rows[id].what
  {
    TransitionKeepsInv(l, id, Running, NO_OUTCOME, now, ok);
    var l1 := MoveRow(l, id, Running, NO_OUTCOME, now, ok).0;
    Invocations.RunKeepsInv(l1, meanwhile);
    RunKeepsIdentity(l1, meanwhile, id);
  }

  lemma StepAuditsOnlyTerminal(l: Ledger, op: Op, id: Id)
    requires id < |l.rows| && !Terminal(Step(l, op).rows[id].status)
    ensures forall e :: e in StepEvents(l, op) ==> e.subjectId != id
  {
  }

  /** While an invocation is not terminal no other caller appends an event about it. */
  lemma {:induction false} ActiveIsNotAudited(l: Ledger, ops: seq<Op>, id: Id)
    requires id < |l.rows| && id < |Run(l, ops).rows| && !Terminal(Run(l, ops).rows[id].status)
    ensures forall e :: e in RunEvents(l, ops) ==> e.subjectId != id
    decreases |ops|
  {
    if ops != [] {
      StepMovesRow(l, ops[0], id);
      if Terminal(Step(l, ops[0]).rows[id].status) {
        TerminalForEver(Step(l, ops[0]), ops[1..], id);
      } else {
        StepAuditsOnlyTerminal(l, ops[0], id);
        ActiveIsNotAudited(Step(l, ops[0]), ops[1..], id);
      }
    }
  }

  /** What other callers append between the request and the answer is about other invocations. */
  lemma NoiseIsForeign(l: Ledger, id: Id, now: Time, ok: bool, meanwhile: seq<Op>, to: Status, outcome: Outcome, done: bool)
    requires id < |l.rows|
    requires MoveRow(Run(MoveRow(l, id, Running, NO_OUTCOME, now, ok).0, meanwhile), id, to, outcome, now, done).1.Ok?
    ensures forall e :: e in RunEvents(MoveRow(l, id, Running, NO_OUTCOME, now, ok).0, meanwhile) ==> e.subjectId != id
  {
    ActiveIsNotAudited(MoveRow(l, id, Running, NO_OUTCOME, now, ok).0, meanwhile, id);
  }

  lemma LiveSettles(w: World, id: Id, r: Request, env: Env)
    requires LedgerInv(w.ledger) && id < |w.ledger.rows| && w.ledger.rows[id].what == r
    requires Live(w, id, r, env).1.Ok?
    ensures var (w', result) := Live(w, id, r, env);
      result.value == id && Settled(w'.ledger, id, r) && w'.ledger.rows[id].status == Target(env)
      && w'.ledger.rows[id].completedAt == Some(env.now)
  {
    RunningRow(w.ledger, id, env.now, env.runningOk, env.meanwhile);
    var l := MoveRow(w.ledger, id, Running, NO_OUTCOME, env.now, env.runningOk).0;
    MoveSettles(Run(l, env.meanwhile), id, Target(env), FinalOutcome(env), env.now, env.finalOk);
  }

  lemma FinalEventsPermitted(env: Env, id: Id, r: Request, root: Id, next: Id)
    ensures SameInvocation(FinalEvents(env, id, r, root, next), id, r.correlationId)
    ensures PermittedEnding(FinalEvents(env, id, r, root, next), root, next, true)
  {
  }

  lemma NotEmpty(events: seq<Event>, root: Id, at: Id, byRejection: bool)
    requires PermittedEnding(events, root, at, byRejection)
    ensures events != []
  {}

  lemma LiveChains(w: World, id: Id, r: Request, env: Env) returns (at: Id)
    requires id < |w.ledger.rows| && Live(w, id, r, env).1.Ok?
    ensures Chained(Live(w, id, r, env).0.log, id, r, |w.log|, at, true)
    ensures var log := Live(w, id, r, env).0.log;
      && |w.log| < at < |log|
      && log[|w.log|] == RequestedEvent(id, r, env.now) && log[at..] == FinalEvents(env, id, r, |w.log|, at)
  {
    hide FinalEvents, FinalOutcome, Target, MoveRow, Run, RunEvents, Chained, PermittedEnding, SameInvocation;
    var noise := RunEvents(MoveRow(w.ledger, id, Running, NO_OUTCOME, env.now, env.runningOk).0, env.meanwhile);
    at := |w.log| + 1 + |noise|;
    var ending := FinalEvents(env, id, r, |w.log|, at);
    FinalEventsPermitted(env, id, r, |w.log|, at);
    NoiseIsForeign(w.ledger, id, env.now, env.runningOk, env.meanwhile, Target(env), FinalOutcome(env), env.finalOk);
    EndingIsChained(w.log, id, r, noise, ending, true, env.now);
    assert Live(w, id, r, env).0.log == w.log + [RequestedEvent(id, r, env.now)] + noise + ending;
    NotEmpty(ending, |w.log|, at, true);
  }

  /**
   * Whenever `run_background_task` returns, its invocation is terminal with its slot free, its events
   * form a permitted chain in which a failure after a rejection is caused by the rejection, and the
   * invocation succeeded exactly when the provider answered OK with output that matches the schema.
   */
  lemma BackgroundReturns(w: World, c: Call, env: Env) returns (root: Id, at: Id)
    requires LedgerInv(w.ledger) && Background(w, c, env).1.Ok?
    ensures var (w', result) := Background(w, c, env); var id := result.value;
      var r := RequestOf(c, env.task.value);
      && id == |w.ledger.rows| && Settled(w'.ledger, id, r)
      && (w'.ledger.rows[id].status == Succeeded <==> OutputAccepted(env))
      && (w'.ledger.rows[id].status == Failed <==> !OutputAccepted(env))
      && w'.ledger.rows[id].completedAt == Some(env.now)
      && root >= |w.log| && Chained(w'.log, id, r, root, at, true) && root < at < |w'.log|
      && w'.log[root] == RequestedEvent(id, r, env.now) && w'.log[at..] == FinalEvents(env, id, r, root, at)
  {
    var r := RequestOf(c, env.task.value);
    CreatedRow(w.ledger, r, env.now, env.verdicts);
    var (l, created, events) := Create(w.ledger, r, env.now, env.verdicts);
    root := |w.log + events|;
    LiveSettles(World(l, w.log + events), created.value, r, env);
    at := LiveChains(World(l, w.log + events), created.value, r, env);
  }

  lemma EndingIsChained(before: seq<Event>, id: Id, r: Request, noise: seq<Event>, ending: seq<Event>,
                        byRejection: bool, now: Time)
    requires forall e :: e in noise ==> e.subjectId != id
    requires SameInvocation(ending, id, r.correlationId)
    requires PermittedEnding(ending, |before|, |before| + 1 + |noise|, byRejection)
    ensures var log, at := before + [RequestedEvent(id, r, now)] + noise + ending, |before| + 1 + |noise|;
      && Chained(log, id, r, |before|, at, byRejection)
      && log[|before|] == RequestedEvent(id, r, now) && log[at..] == ending
  {
    var log := before + [RequestedEvent(id, r, now)] + noise + ending;
    assert log[|before| + 1 + |noise|..] == ending;
    assert log[|before|] == RequestedEvent(id, r, now);
    forall i | |before| < i < |before| + 1 + |noise| ensures log[i].subjectId != id {
      assert log[i] == noise[i - |before| - 1];
    }
  }

  lemma OperatorLiveSettles(w: World, id: Id, r: Request, env: OperatorEnv)
    requires LedgerInv(w.ledger) && id < |w.ledger.rows| && w.ledger.rows[id].what == r
    requires OperatorLive(w, id, r, env).1.Ok?
    ensures var (w', result) := OperatorLive(w, id, r, env);
      result.value == id && Settled(w'.ledger, id, r) && w'.ledger.rows[id].status == OperatorTarget(env.runner)
      && w'.ledger.rows[id].completedAt == Some(env.now)
  {
    RunningRow(w.ledger, id, env.now, env.runningOk, env.meanwhile);
    var l := MoveRow(w.ledger, id, Running, NO_OUTCOME, env.now, env.runningOk).0;
    MoveSettles(Run(l, env.meanwhile), id, OperatorTarget(env.runner), OperatorOutcome(env.runner), env.now, env.finalOk);
  }

  lemma OperatorLiveChains(w: World, id: Id, r: Request, env: OperatorEnv) returns (at: Id)
    requires id < |w.ledger.rows| && OperatorLive(w, id, r, env).1.Ok?
    ensures Chained(OperatorLive(w, id, r, env).0.log, id, r, |w.log|, at, false)
    ensures var log := OperatorLive(w, id, r, env).0.log;
      && |w.log| < at < |log|
      && log[|w.log|] == RequestedEvent(id, r, env.now)
      && log[at..] == EventsBeforeMove(env.runner, id, r, |w.log|, env.now) + EventsAfterMove(env.runner, id, r, |w.log|, env.now)
  {
    hide OperatorOutcome, OperatorTarget, MoveRow, Run, RunEvents, Chained;
    var noise := RunEvents(MoveRow(w.ledger, id, Running, NO_OUTCOME, env.now, env.runningOk).0, env.meanwhile);
    var root := |w.log|;
    at := root + 1 + |noise|;
    var first, second := EventsBeforeMove(env.runner, id, r, root, env.now), EventsAfterMove(env.runner, id, r, root, env.now);
    NoiseIsForeign(w.ledger, id, env.now, env.runningOk, env.meanwhile,
                   OperatorTarget(env.runner), OperatorOutcome(env.runner), env.finalOk);
    EndingIsChained(w.log, id, r, noise, first + second, false, env.now);
    var log := w.log + [RequestedEvent(id, r, env.now)] + noise;
    assert log + first + second == log + (first + second);
  }

  /**
   * Whenever `handle_operator_message` returns, the same holds with the operator's own rules: a
   * timeout ends in TIMED_OUT, and every failure event is caused by the request itself.
   */
  lemma OperatorReturns(w: World, m: Message, env: OperatorEnv) returns (root: Id, at: Id)
    requires LedgerInv(w.ledger)
    ensures Operator(w, m, env).1.Ok? ==>
      var (w', result) := Operator(w, m, env); var id := result.value; var r := OperatorRequest(m);
      && id == |w.ledger.rows| && Settled(w'.ledger, id, r)
      && (w'.ledger.rows[id].status == Succeeded <==> env.runner.RunnerOk? && env.runner.valid)
      && (w'.ledger.rows[id].status == TimedOut <==> env.runner.RunnerTimeout?)
      && (w'.ledger.rows[id].status == Failed <==> env.runner.RunnerError? || (env.runner.RunnerOk? && !env.runner.valid))
      && w'.ledger.rows[id].completedAt == Some(env.now)
      && root >= |w.log| && Chained(w'.log, id, r, root, at, false) && root < at < |w'.log|
      && w'.log[root] == RequestedEvent(id, r, env.now)
      && w'.log[at..] == EventsBeforeMove(env.runner, id, r, root, env.now) + EventsAfterMove(env.runner, id, r, root, env.now)
  {
    root, at := 0, 0;
    if Operator(w, m, env).1.Err? { return; }
    var r := OperatorRequest(m);
    CreatedRow(w.ledger, r, env.now, env.verdicts);
    var (l, created, events) := Create(w.ledger, r, env.now, env.verdicts);
    root := |w.log + events|;
    OperatorLiveSettles(World(l, w.log + events), created.value, r, env);
    at := OperatorLiveChains(World(l, w.log + events), created.value, r, env);
  }

  /** The last event of a returned call tells what the row holds: success with output, or the row's own error code. */
  predicate Told(row: Invocation, last: Event) {
    && (row.status == Succeeded ==> row.outcome.errorCode.None? && row.outcome.output.Some?
                                    && last.eventType == "AI_INVOCATION_SUCCEEDED")
    && (row.status != Succeeded ==> row.outcome.errorCode.Some? && last.eventType == "AI_INVOCATION_FAILED"
                                    && last.payload == map["error_code" := Text(row.outcome.errorCode.value)])
  }

  lemma FinalEventTells(env: Env, id: Id, r: Request, root: Id, next: Id, row: Invocation)
    requires row.status == Target(env) && row.outcome == FinalOutcome(env)
    ensures var ending := FinalEvents(env, id, r, root, next); ending != [] && Told(row, ending[|ending| - 1])
  {}

  lemma ConcludeTells(w: World, id: Id, r: Request, root: Id, env: Env)
    requires id < |w.ledger.rows| && w.ledger.rows[id].outcome == NO_OUTCOME && Conclude(w, id, r, root, env).1.Ok?
    ensures var w' := Conclude(w, id, r, root, env).0;
      && id < |w'.ledger.rows| && w'.log != []
      && w'.ledger.rows[id].outcome == FinalOutcome(env) && Told(w'.ledger.rows[id], w'.log[|w'.log| - 1])
  {
    hide FinalEvents, FinalOutcome, Target, Told;
    var w' := Conclude(w, id, r, root, env).0;
    FinalEventTells(env, id, r, root, |w.log|, w'.ledger.rows[id]);
  }

  lemma LiveTells(w: World, id: Id, r: Request, env: Env)
    requires LedgerInv(w.ledger) && id < |w.ledger.rows| && w.ledger.rows[id].outcome == NO_OUTCOME
    requires Live(w, id, r, env).1.Ok?
    ensures var (w', result) := Live(w, id, r, env);
      && result.value == id && id < |w'.ledger.rows| && w'.log != []
      && w'.ledger.rows[id].outcome == FinalOutcome(env) && Told(w'.ledger.rows[id], w'.log[|w'.log| - 1])
  {
    hide FinalOutcome, Told, FinalEvents, LedgerInv;
    RunningRow(w.ledger, id, env.now, env.runningOk, env.meanwhile);
    var l := MoveRow(w.ledger, id, Running, NO_OUTCOME, env.now, env.runningOk).0;
    var log := w.log + [RequestedEvent(id, r, env.now)] + RunEvents(l, env.meanwhile);
    RunningUntouched(l, env.meanwhile, id);
    ConcludeTells(World(Run(l, env.meanwhile), log), id, r, |w.log|, env);
  }

  /** Ledger and audit log tell the same story of every background call that returns. */
  lemma BackgroundTells(w: World, c: Call, env: Env)
    requires LedgerInv(w.ledger) && Background(w, c, env).1.Ok?
    ensures var (w', result) := Background(w, c, env); var id := result.value;
      && id < |w'.ledger.rows| && w'.log != []
      && w'.ledger.rows[id].outcome == FinalOutcome(env) && Told(w'.ledger.rows[id], w'.log[|w'.log| - 1])
  {
    hide FinalOutcome, Told, Live, Create, LedgerInv;
    var r := RequestOf(c, env.task.value);
    CreatedRow(w.ledger, r, env.now, env.verdicts);
    var (l, created, events) := Create(w.ledger, r, env.now, env.verdicts);
    LiveTells(World(l, w.log + events), created.value, r, env);
  }

  lemma OperatorConcludeTells(w: World, id: Id, r: Request, root: Id, env: OperatorEnv)
    requires id < |w.ledger.rows| && w.ledger.rows[id].outcome == NO_OUTCOME
    requires OperatorConclude(w, id, r, root, env).1.Ok?
    ensures var w' := OperatorConclude(w, id, r, root, env).0;
      && id < |w'.ledger.rows| && w'.log != []
      && w'.ledger.rows[id].outcome == OperatorOutcome(env.runner) && Told(w'.ledger.rows[id], w'.log[|w'.log| - 1])
  {
    hide Vacate, SubjectOf;
  }

  lemma OperatorLiveTells(w: World, id: Id, r: Request, env: OperatorEnv)
    requires LedgerInv(w.ledger) && id < |w.ledger.rows| && w.ledger.rows[id].outcome == NO_OUTCOME
    requires OperatorLive(w, id, r, env).1.Ok?
    ensures var (w', result) := OperatorLive(w, id, r, env);
      && result.value == id && id < |w'.ledger.rows| && w'.log != []
      && w'.ledger.rows[id].outcome == OperatorOutcome(env.runner) && Told(w'.ledger.rows[id], w'.log[|w'.log| - 1])
  {
    hide OperatorOutcome, Told, EventsBeforeMove, EventsAfterMove, LedgerInv;
    RunningRow(w.ledger, id, env.now, env.runningOk, env.meanwhile);
    var l := MoveRow(w.ledger, id, Running, NO_OUTCOME, env.now, env.runningOk).0;
    var log := w.log + [RequestedEvent(id, r, env.now)] + RunEvents(l, env.meanwhile);
    RunningUntouched(l, env.meanwhile, id);
    OperatorConcludeTells(World(Run(l, env.meanwhile), log), id, r, |w.log|, env);
  }

  /** The same for every operator message that returns. */
  lemma OperatorTells(w: World, m: Message, env: OperatorEnv)
    requires LedgerInv(w.ledger) && Operator(w, m, env).1.Ok?
    ensures var (w', result) := Operator(w, m, env); var id := result.value;
      && id < |w'.ledger.rows| && w'.log != []
      && w'.ledger.rows[id].outcome == OperatorOutcome(env.runner) && Told(w'.ledger.rows[id], w'.log[|w'.log| - 1])
  {
    hide OperatorOutcome, Told, OperatorLive, Create, LedgerInv;
    var r := OperatorRequest(m);
    CreatedRow(w.ledger, r, env.now, env.verdicts);
    var (l, created, events) := Create(w.ledger, r, env.now, env.verdicts);
    OperatorLiveTells(World(l, w.log + events), created.value, r, env);
  }

  // ---------------------------------------------------------------------------------------------
  // What a returned call leaves on record, field by field
  // ---------------------------------------------------------------------------------------------

  /**
   * Everything that a returning background call leaves in the ledger and the log: the row holds the
   * caller's own request and one of four outcomes, and the events around it name the same actor,
   * moment, invocation and correlation id, with these types, causes and payloads.
   */
  lemma BackgroundRecords(w: World, c: Call, env: Env) returns (root: Id, at: Id)
    requires LedgerInv(w.ledger) && Background(w, c, env).1.Ok?
    ensures env.task.Some? && |w.ledger.rows| < |Background(w, c, env).0.ledger.rows|
    ensures |w.log| <= root < at < |Background(w, c, env).0.log|
    ensures var w' := Background(w, c, env).0; var id := |w.ledger.rows|; var row, log := w'.ledger.rows[id], w'.log;
      && Background(w, c, env).1 == Ok(id) && row.completedAt == Some(env.now) && SubjectOf(row.what) !in w'.ledger.active
      && row.what == Request(c.taskId, c.taskVersion, "BACKGROUND", "LITELLM",
                             Some(if c.aliasOverride.Some? then c.aliasOverride.value else env.task.value.preferredCapability),
                             c.inferenceBackend, c.inputReferences, c.actorType, c.actorId, c.correlationId)
      && log[root] == Event("AI_INVOCATION_REQUESTED", env.now, c.actorType, c.actorId, "AIInvocation", id, c.correlationId,
                            None, map["task_id" := Text(c.taskId), "task_version" := Number(c.taskVersion)])
      && (forall i :: root < i < at ==> log[i].subjectId != id)
      && (env.provider.ProviderError? ==>
            var code := "LITELLM_" + env.provider.status;
            && row.status == Failed && row.outcome == Outcome(Some(code), None, None, false)
            && log[at..] == [Event("AI_INVOCATION_FAILED", env.now, c.actorType, c.actorId, "AIInvocation", id,
                                   c.correlationId, Some(root), map["error_code" := Text(code)])])
      && (env.provider.ProviderOk? && env.reply.Json? && env.reply.matchesSchema ==>
            && row.status == Succeeded
            && row.outcome == Outcome(None, Some(ValidationResult(true)), Some(env.reply.content), false)
            && log[at..] == [Event("AI_INVOCATION_SUCCEEDED", env.now, c.actorType, c.actorId, "AIInvocation", id,
                                   c.correlationId, Some(root), map["task_id" := Text(c.taskId)])])
      && (env.provider.ProviderOk? && !(env.reply.Json? && env.reply.matchesSchema) ==>
            var code := if env.reply.NotJson? then "OUTPUT_NOT_JSON" else "OUTPUT_SCHEMA_INVALID";
            && row.status == Failed
            && row.outcome == Outcome(Some(code), Some(ValidationResult(false)),
                                      if env.reply.NotJson? then None else Some(env.reply.content), false)
            && log[at..] == [Event("AI_OUTPUT_REJECTED", env.now, c.actorType, c.actorId, "AIInvocation", id,
                                   c.correlationId, Some(root), map["error_code" := Text(code)]),
                             Event("AI_INVOCATION_FAILED", env.now, c.actorType, c.actorId, "AIInvocation", id,
                                   c.correlationId, Some(at), map["error_code" := Text(code)])])
  {
    hide Background, LedgerInv, PermittedEnding, SameInvocation;
    TaskIsKnown(w, c, env);
    root, at := BackgroundReturns(w, c, env);
    BackgroundTells(w, c, env);
  }

  lemma TaskIsKnown(w: World, c: Call, env: Env)
    requires Background(w, c, env).1.Ok?
    ensures env.task.Some?
  {}

  /** The same for a returning operator message: five outcomes, and a failure always caused by the request. */
  lemma OperatorRecords(w: World, m: Message, env: OperatorEnv) returns (root: Id, at: Id)
    requires LedgerInv(w.ledger) && Operator(w, m, env).1.Ok?
    ensures |w.ledger.rows| < |Operator(w, m, env).0.ledger.rows|
    ensures |w.log| <= root < at < |Operator(w, m, env).0.log|
    ensures var w' := Operator(w, m, env).0; var id := |w.ledger.rows|; var row, log := w'.ledger.rows[id], w'.log;
      var failed := (code: string) => Event("AI_INVOCATION_FAILED", env.now, m.actorType, m.actorId, "AIInvocation", id,
                                            m.correlationId, Some(root), map["error_code" := Text(code)]);
      && Operator(w, m, env).1 == Ok(id) && row.completedAt == Some(env.now) && SubjectOf(row.what) !in w'.ledger.active
      && row.what == Request("ASK_BAGMAN", 1, "OPERATOR", "ANTHROPIC", None, "MAC_LOCAL", m.inputReferences,
                             m.actorType, m.actorId, m.correlationId)
      && log[root] == Event("AI_INVOCATION_REQUESTED", env.now, m.actorType, m.actorId, "AIInvocation", id, m.correlationId,
                            None, map["task_id" := Text("ASK_BAGMAN"), "task_version" := Number(1)])
      && (forall i :: root < i < at ==> log[i].subjectId != id)
      && (match env.runner
          case RunnerTimeout =>
            && row.status == TimedOut && row.outcome == Outcome(Some("CLAUDE_CODE_TIMEOUT"), None, None, false)
            && log[at..] == [failed("CLAUDE_CODE_TIMEOUT")]
          case RunnerError(code) =>
            && row.status == Failed && row.outcome == Outcome(Some(code), None, None, false)
            && log[at..] == [failed(code)]
          case RunnerOk(text, true) =>
            && row.status == Succeeded && row.outcome == Outcome(None, Some(ValidationResult(true)), Some(text), false)
            && log[at..] == [Event("AI_INVOCATION_SUCCEEDED", env.now, m.actorType, m.actorId, "AIInvocation", id,
                                   m.correlationId, Some(root), map["task_id" := Text("ASK_BAGMAN")])]
          case RunnerOk(text, false) =>
            && row.status == Failed
            && row.outcome == Outcome(Some("OUTPUT_SCHEMA_VALIDATION_FAILED"), Some(ValidationResult(false)), Some(text), false)
            && log[at..] == [Event("AI_OUTPUT_REJECTED", env.now, m.actorType, m.actorId, "AIInvocation", id,
                                   m.correlationId, Some(root), map["error_code" := Text("OUTPUT_SCHEMA_VALIDATION_FAILED")]),
                             failed("OUTPUT_SCHEMA_VALIDATION_FAILED")])
  {
    hide Operator, LedgerInv, PermittedEnding, SameInvocation;
    root, at := OperatorReturns(w, m, env);
    OperatorTells(w, m, env);
  }

  /**
   * What a background call refuses before it writes anything: an unknown task, a task of another
   * role, an input that does not match the task's schema, and whatever the creation refuses.
   */
  lemma BackgroundRefuses(w: World, c: Call, env: Env)
    ensures env.task.None? ==> Background(w, c, env) == (w, Err(NotFoundError))
    ensures env.task.Some? && (env.task.value.role != "BACKGROUND" || !env.task.value.inputMatchesSchema) ==>
              Background(w, c, env) == (w, Err(ValidationError))
    ensures env.task.Some? && env.task.value.role == "BACKGROUND" && env.task.value.inputMatchesSchema ==>
              var created := Create(w.ledger, RequestOf(c, env.task.value), env.now, env.verdicts).1;
              created.Err? ==> Background(w, c, env).1 == Err(created.error)
  {
    hide Create, Live;
  }

  /** An operator message that is blank is refused before anything is written. */
  lemma OperatorRefuses(w: World, m: Message, env: OperatorEnv)
    ensures m.blank ==> Operator(w, m, env) == (w, Err(ValidationError))
    ensures Operator(w, m, env).1.Ok? ==> !m.blank && env.runningOk && env.contextFound
  {
    hide Create;
  }

  /** Every call, returning or raising, keeps the subject index exact. */
  lemma BackgroundKeepsInv(w: World, c: Call, env: Env)
    requires LedgerInv(w.ledger)
    ensures LedgerInv(Background(w, c, env).0.ledger)
  {
    if env.task.Some? {
      var r := RequestOf(c, env.task.value);
      CreateKeepsInv(w.ledger, r, env.now, env.verdicts);
      var (l, created, events) := Create(w.ledger, r, env.now, env.verdicts);
      if created.Ok? {
        TransitionKeepsInv(l, created.value, Running, NO_OUTCOME, env.now, env.runningOk);
        var l1 := MoveRow(l, created.value, Running, NO_OUTCOME, env.now, env.runningOk).0;
        Invocations.RunKeepsInv(l1, env.meanwhile);
        TransitionKeepsInv(Run(l1, env.meanwhile), created.value, Target(env), FinalOutcome(env), env.now, env.finalOk);
      }
    }
  }

  /** So does every operator message. */
  lemma OperatorKeepsInv(w: World, m: Message, env: OperatorEnv)
    requires LedgerInv(w.ledger)
    ensures LedgerInv(Operator(w, m, env).0.ledger)
  {
    if !m.blank {
      var r := OperatorRequest(m);
      CreateKeepsInv(w.ledger, r, env.now, env.verdicts);
      var (l, created, events) := Create(w.ledger, r, env.now, env.verdicts);
      if created.Ok? {
        TransitionKeepsInv(l, created.value, Running, NO_OUTCOME, env.now, env.runningOk);
        var l1 := MoveRow(l, created.value, Running, NO_OUTCOME, env.now, env.runningOk).0;
        Invocations.RunKeepsInv(l1, env.meanwhile);
        TransitionKeepsInv(Run(l1, env.meanwhile), created.value, OperatorTarget(env.runner), OperatorOutcome(env.runner),
                           env.now, env.finalOk);
      }
    }
  }

  /**
   * An undisturbed background call that reached RUNNING raises in exactly two ways: no prompt is
   * found, or the last transition violates the contract.  Either way the row is left RUNNING and
   * keeps its subject slot, until it goes stale.
   */
  lemma BackgroundRaisesIff(w: World, c: Call, env: Env)
    requires LedgerInv(w.ledger) && env.meanwhile == []
    requires env.task.Some? && env.task.value.role == "BACKGROUND" && env.task.value.inputMatchesSchema
    requires Create(w.ledger, RequestOf(c, env.task.value), env.now, env.verdicts).1.Ok? && env.runningOk
    ensures var (w', result) := Background(w, c, env);
      && (result.Ok? <==> env.promptFound && env.finalOk)
      && (result.Err? ==> result.error == (if env.promptFound then ValidationError else NotFoundError)
                          && |w.ledger.rows| < |w'.ledger.rows| && w'.ledger.rows[|w.ledger.rows|].status == Running
                          && SubjectOf(RequestOf(c, env.task.value)) in w'.ledger.active
                          && w'.ledger.active[SubjectOf(RequestOf(c, env.task.value))] == |w.ledger.rows|)
  {
    hide Create, LedgerInv;
    CreatedRow(w.ledger, RequestOf(c, env.task.value), env.now, env.verdicts);
    var (w', result) := Background(w, c, env);
    if result.Err? {
      BackgroundKeepsInv(w, c, env);
      OneActivePerSubject(w'.ledger, SubjectOf(RequestOf(c, env.task.value)), |w.ledger.rows|, |w.ledger.rows|);
    }
  }

  /**
   * The same for an operator message: it raises exactly when a referenced record is not found or the
   * last transition violates the contract, and leaves its invocation RUNNING.
   */
  lemma OperatorRaisesIff(w: World, m: Message, env: OperatorEnv)
    requires LedgerInv(w.ledger) && env.meanwhile == [] && !m.blank
    requires Create(w.ledger, OperatorRequest(m), env.now, env.verdicts).1.Ok? && env.runningOk
    ensures var (w', result) := Operator(w, m, env);
      && (result.Ok? <==> env.contextFound && env.finalOk)
      && (result.Err? ==> result.error == (if env.contextFound then ValidationError else NotFoundError)
                          && |w.ledger.rows| < |w'.ledger.rows| && w'.ledger.rows[|w.ledger.rows|].status == Running
                          && SubjectOf(OperatorRequest(m)) in w'.ledger.active
                          && w'.ledger.active[SubjectOf(OperatorRequest(m))] == |w.ledger.rows|)
  {
    hide Create, LedgerInv;
    CreatedRow(w.ledger, OperatorRequest(m), env.now, env.verdicts);
    var (w', result) := Operator(w, m, env);
    if result.Err? {
      OperatorKeepsInv(w, m, env);
      OneActivePerSubject(w'.ledger, SubjectOf(OperatorRequest(m)), |w.ledger.rows|, |w.ledger.rows|);
    }
  }
}
