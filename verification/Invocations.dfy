/** The AI invocation ledger (ai/invocation.py): state machine, subject index, stale recovery. */
module Invocations {
  import opened Common
  import opened Audit

  datatype Status = Requested | Running | Succeeded | Failed | Rejected | TimedOut | Cancelled

  predicate Terminal(s: Status) { s != Requested && s != Running }

  predicate Allowed(from: Status, to: Status) {
    match from
    case Requested => to == Running || to == Failed || to == Rejected || to == Cancelled
    case Running => to == Succeeded || to == Failed || to == TimedOut || to == Cancelled
    case _ => false
  }

  const STALE_THRESHOLD: Time := 600_000_000

  // ---------------------------------------------------------------------------------------------
  // The subject of an invocation
  // ---------------------------------------------------------------------------------------------

  const REFERENCE_KEYS: seq<string> := ["evidence_id", "intake_id", "entity_id", "conversation_id"]

  predicate Usable(refs: map<string, Datum>, key: string) {
    key in refs && refs[key].Text? && refs[key].text != ""
  }

  function FirstUsable(refs: map<string, Datum>, keys: seq<string>): Option<string> {
    if keys == [] then None
    else if Usable(refs, keys[0]) then Some(refs[keys[0]].text)
    else FirstUsable(refs, keys[1..])
  }

  function DerivePrimary(refs: map<string, Datum>): Result<string, Error> {
    match FirstUsable(refs, REFERENCE_KEYS)
    case Some(v) => Ok(v)
    case None => Err(ValidationError)
  }

  /** The derived reference is the first usable key in precedence order; an error means there is none. */
  lemma {:induction false} FirstUsableIsFirst(refs: map<string, Datum>, keys: seq<string>)
    ensures FirstUsable(refs, keys).None? <==> forall k :: 0 <= k < |keys| ==> !Usable(refs, keys[k])
    ensures FirstUsable(refs, keys).Some? ==>
              exists k :: 0 <= k < |keys| && Usable(refs, keys[k]) && refs[keys[k]].text == FirstUsable(refs, keys).value
                          && forall i :: 0 <= i < k ==> !Usable(refs, keys[i])
  {
    if keys != [] && !Usable(refs, keys[0]) {
      FirstUsableIsFirst(refs, keys[1..]);
      assert forall k :: 0 < k < |keys| ==> keys[k] == keys[1..][k - 1];
      if FirstUsable(refs, keys).Some? {
        var k :| 0 <= k < |keys| - 1 && Usable(refs, keys[1..][k])
                 && refs[keys[1..][k]].text == FirstUsable(refs, keys).value
                 && forall i :: 0 <= i < k ==> !Usable(refs, keys[1..][i]);
        assert Usable(refs, keys[k + 1]);
      }
    }
  }

  // ---------------------------------------------------------------------------------------------
  // Role, provider and alias pairing
  // ---------------------------------------------------------------------------------------------

  function BackendOf(alias: string): Option<string> {
    if alias == "bagman-fast" || alias == "bagman-core" then Some("MAC_LOCAL")
    else if alias == "trinity-core" then Some("TRINITY_CORE_OVERFLOW")
    else None
  }

  predicate ValidPairing(role: string, provider: string, alias: Option<string>, backend: string) {
    && (role == "OPERATOR" || role == "BACKGROUND")
    && (provider == "LITELLM" || provider == "ANTHROPIC")
    && (backend == "MAC_LOCAL" || backend == "TRINITY_CORE_OVERFLOW")
    && (if role == "BACKGROUND"
        then provider == "LITELLM" && alias.Some? && BackendOf(alias.value) == Some(backend)
        else provider == "ANTHROPIC" && alias == None && backend == "MAC_LOCAL")
  }

  // ---------------------------------------------------------------------------------------------
  // Rows
  // ---------------------------------------------------------------------------------------------

  /** The identity fields that a caller fixes at creation. */
  datatype Request = Request(
    taskId: string,
    taskVersion: int,
    role: string,
    provider: string,
    capabilityAlias: Option<string>,
    inferenceBackend: string,
    inputReferences: map<string, Datum>,
    actorType: string,
    actorId: string,
    correlationId: string)

  datatype ValidationResult = ValidationResult(valid: bool)

  /** The fields that a transition may update. */
  datatype Outcome = Outcome(
    errorCode: Option<string>,
    validation: Option<ValidationResult>,
    output: Option<string>,
    staleRecovery: bool)

  const NO_OUTCOME: Outcome := Outcome(None, None, None, false)

  datatype Invocation = Invocation(
    what: Request,
    status: Status,
    startedAt: Time,
    completedAt: Option<Time>,
    outcome: Outcome)

  datatype Subject = Subject(taskId: string, taskVersion: int, reference: string)

  /** The subject slot that an invocation with these identity fields occupies while it is active. */
  function SubjectOf(r: Request): Subject {
    var d := DerivePrimary(r.inputReferences);
    Subject(r.taskId, r.taskVersion, if d.Ok? then d.value else "")
  }

  /** The rows in creation order (an `ai_invocation_id` is a position) and the active-subject index. */
  datatype Ledger = Ledger(rows: seq<Invocation>, active: map<Subject, Id>)

  const EMPTY: Ledger := Ledger([], map[])

  predicate Active(l: Ledger, s: Subject, id: Id) {
    id < |l.rows| && !Terminal(l.rows[id].status) && SubjectOf(l.rows[id].what) == s
  }

  predicate RowInv(i: Invocation) {
    && (i.completedAt.Some? <==> Terminal(i.status))
    && DerivePrimary(i.what.inputReferences).Ok?
    && ValidPairing(i.what.role, i.what.provider, i.what.capabilityAlias, i.what.inferenceBackend)
  }

  /** The index maps a subject to an id exactly when that row is active with that subject. */
  ghost predicate LedgerInv(l: Ledger) {
    && (forall id: Id :: id < |l.rows| ==> RowInv(l.rows[id]))
    && (forall s: Subject :: s in l.active ==> Active(l, s, l.active[s]))
    && (forall id: Id :: id < |l.rows| && !Terminal(l.rows[id].status) ==>
          SubjectOf(l.rows[id].what) in l.active && l.active[SubjectOf(l.rows[id].what)] == id)
  }

  /** At most one non-terminal invocation exists per subject. */
  lemma OneActivePerSubject(l: Ledger, s: Subject, a: Id, b: Id)
    requires LedgerInv(l) && Active(l, s, a) && Active(l, s, b)
    ensures a == b
    ensures s in l.active && l.active[s] == a
  {
  }

  // ---------------------------------------------------------------------------------------------
  // Transitions
  // ---------------------------------------------------------------------------------------------

  /** Field updates: each field that is passed replaces the old value, the others keep theirs. */
  function Merge(was: Outcome, updates: Outcome): Outcome {
    Outcome(if updates.errorCode.Some? then updates.errorCode else was.errorCode,
            if updates.validation.Some? then updates.validation else was.validation,
            if updates.output.Some? then updates.output else was.output,
            updates.staleRecovery || was.staleRecovery)
  }

  /** One row moves along the transition table; a terminal state stamps `completed_at`. */
  function Transition(i: Invocation, to: Status, updates: Outcome, now: Time, contractOk: bool): Result<Invocation, Error> {
    if !Allowed(i.status, to) then Err(InvalidStateTransition)
    else if !contractOk then Err(ValidationError)
    else
      Ok(i.(status := to, outcome := Merge(i.outcome, updates), completedAt := if Terminal(to) then Some(now) else i.completedAt))
  }

  predicate IsStale(i: Invocation, now: Time) {
    !Terminal(i.status) && now - i.startedAt > STALE_THRESHOLD
  }

  function RecoveryTarget(i: Invocation): Status {
    if i.status == Running then TimedOut else Failed
  }

  function RecoveryOutcome(i: Invocation): Outcome {
    var code := if i.status == Running then "STALE_RECOVERY_TIMEOUT" else "STALE_RECOVERY_NEVER_DISPATCHED";
    Outcome(Some(code), None, None, true)
  }

  /** Stale recovery never meets a forbidden edge: only contract validation can stop it. */
  function RecoverStale(i: Invocation, now: Time, contractOk: bool): (r: Result<Invocation, Error>)
    ensures !Terminal(i.status) ==> (r.Ok? <==> contractOk) && (r.Err? ==> r.error == ValidationError)
    ensures r.Ok? ==> Terminal(r.value.status) && r.value.completedAt == Some(now) && r.value.what == i.what
  {
    Transition(i, RecoveryTarget(i), RecoveryOutcome(i), now, contractOk)
  }

  function StatusText(s: Status): string {
    match s
    case Requested => "REQUESTED"
    case Running => "RUNNING"
    case Succeeded => "SUCCEEDED"
    case Failed => "FAILED"
    case Rejected => "REJECTED"
    case TimedOut => "TIMED_OUT"
    case Cancelled => "CANCELLED"
  }

  function RecoveryEvent(id: Id, recovered: Invocation, now: Time): Event {
    Event("AI_INVOCATION_STALE_RECOVERED", now, "SYSTEM", "ai-invocation-stale-recovery", "AIInvocation", id,
          recovered.what.correlationId, None,
          map["task_id" := Text(recovered.what.taskId),
              "task_version" := Number(recovered.what.taskVersion),
              "recovered_status" := Text(StatusText(recovered.status)),
              "error_code" := if recovered.outcome.errorCode.Some? then Text(recovered.outcome.errorCode.value) else Null,
              "stale_threshold" := Number(STALE_THRESHOLD)])
  }

  // ---------------------------------------------------------------------------------------------
  // Operations on the ledger; each returns the new ledger, the result and the events it appends
  // ---------------------------------------------------------------------------------------------

  /** Clears the slot of a row that reached a terminal state, if that row holds it. */
  function Vacate(active: map<Subject, Id>, s: Subject, id: Id): map<Subject, Id> {
    if s in active && active[s] == id then active - {s} else active
  }

  function Store(l: Ledger, id: Id, i: Invocation): Ledger
    requires id < |l.rows|
  {
    Ledger(l.rows[id := i], if Terminal(i.status) then Vacate(l.active, SubjectOf(i.what), id) else l.active)
  }

  /** Recovers row `id` if it is stale. */
  function RecoverRow(l: Ledger, id: Id, now: Time, contractOk: bool): (Ledger, Result<bool, Error>, seq<Event>)
    requires id < |l.rows|
  {
    if !IsStale(l.rows[id], now) then (l, Ok(false), [])
    else
      var r := RecoverStale(l.rows[id], now, contractOk);
      if r.Err? then (l, Err(r.error), [])
      else (Store(l, id, r.value), Ok(true), [RecoveryEvent(id, r.value, now)])
  }

  function NewInvocation(r: Request, now: Time): Invocation {
    Invocation(r, Requested, now, None, NO_OUTCOME)
  }

  predicate Creatable(r: Request) {
    && ValidPairing(r.role, r.provider, r.capabilityAlias, r.inferenceBackend)
    && r.actorType in ACTOR_TYPES
    && DerivePrimary(r.inputReferences).Ok?
  }

  /** Contract verdicts for the two rows a creation may validate: the recovered one and the new one. */
  datatype Verdicts = Verdicts(recovered: bool, created: bool)

  function Add(l: Ledger, r: Request, now: Time, contractOk: bool): (Ledger, Result<Id, Error>) {
    if !contractOk then (l, Err(ValidationError))
    else (Ledger(l.rows + [NewInvocation(r, now)], l.active[SubjectOf(r) := |l.rows|]), Ok(|l.rows|))
  }

  function Create(l: Ledger, r: Request, now: Time, v: Verdicts): (Ledger, Result<Id, Error>, seq<Event>) {
    if !Creatable(r) then (l, Err(ValidationError), [])
    else if SubjectOf(r) !in l.active || l.active[SubjectOf(r)] >= |l.rows| then
      var (l', id) := Add(l, r, now, v.created);
      (l', id, [])
    else
      var (l1, recovered, events) := RecoverRow(l, l.active[SubjectOf(r)], now, v.recovered);
      if recovered.Err? then (l1, Err(recovered.error), events)
      else if SubjectOf(r) in l1.active then (l1, Err(ActiveInvocationConflict), events)
      else
        var (l2, id) := Add(l1, r, now, v.created);
        (l2, id, events)
  }

  function MoveRow(l: Ledger, id: Id, to: Status, outcome: Outcome, now: Time, contractOk: bool)
    : (Ledger, Result<Invocation, Error>)
  {
    if id >= |l.rows| then (l, Err(NotFoundError))
    else
      var r := Transition(l.rows[id], to, outcome, now, contractOk);
      if r.Ok? then (Store(l, id, r.value), r) else (l, r)
  }

  function FindActive(l: Ledger, s: Subject, now: Time, contractOk: bool): (Ledger, Result<Option<Id>, Error>, seq<Event>) {
    if s !in l.active || l.active[s] >= |l.rows| then (l, Ok(None), [])
    else
      var (l1, recovered, events) := RecoverRow(l, l.active[s], now, contractOk);
      if recovered.Err? then (l1, Err(recovered.error), events)
      else if recovered.value then (l1, Ok(None), events)
      else (l1, Ok(Some(l.active[s])), events)
  }

  // ---------------------------------------------------------------------------------------------
  // Every operation keeps the index exact
  // ---------------------------------------------------------------------------------------------

  lemma StoreKeepsInv(l: Ledger, id: Id, i: Invocation)
    requires LedgerInv(l) && id < |l.rows| && RowInv(i) && i.what == l.rows[id].what
    requires !Terminal(l.rows[id].status)
    ensures LedgerInv(Store(l, id, i))
    ensures Terminal(i.status) ==> SubjectOf(i.what) !in Store(l, id, i).active
    ensures forall s: Subject :: s != SubjectOf(i.what) ==>
              (s in Store(l, id, i).active <==> s in l.active) &&
              (s in l.active ==> Store(l, id, i).active[s] == l.active[s])
  {
    var l' := Store(l, id, i);
    forall s: Subject | s in l'.active ensures Active(l', s, l'.active[s]) {
      assert Active(l, s, l.active[s]);
    }
  }

  lemma AddKeepsInv(l: Ledger, r: Request, now: Time, contractOk: bool)
    requires LedgerInv(l) && Creatable(r) && SubjectOf(r) !in l.active
    ensures LedgerInv(Add(l, r, now, contractOk).0)
  {
    var l' := Add(l, r, now, contractOk).0;
    if contractOk {
      forall s: Subject | s in l'.active ensures Active(l', s, l'.active[s]) {
        assert s != SubjectOf(r) ==> Active(l, s, l.active[s]);
      }
    }
  }

  lemma RecoverKeepsInv(l: Ledger, id: Id, now: Time, contractOk: bool)
    requires LedgerInv(l) && id < |l.rows|
    ensures LedgerInv(RecoverRow(l, id, now, contractOk).0)
    ensures forall e :: e in RecoverRow(l, id, now, contractOk).2 ==> e.actorType in ACTOR_TYPES
    ensures IsStale(l.rows[id], now) && contractOk ==>
              SubjectOf(l.rows[id].what) !in RecoverRow(l, id, now, contractOk).0.active
  {
    if IsStale(l.rows[id], now) && contractOk {
      StoreKeepsInv(l, id, RecoverStale(l.rows[id], now, contractOk).value);
    }
  }

  lemma CreateKeepsInv(l: Ledger, r: Request, now: Time, v: Verdicts)
    requires LedgerInv(l)
    ensures LedgerInv(Create(l, r, now, v).0)
  {
    if Creatable(r) {
      var s := SubjectOf(r);
      if s in l.active {
        assert Active(l, s, l.active[s]);
        RecoverKeepsInv(l, l.active[s], now, v.recovered);
        var l1 := RecoverRow(l, l.active[s], now, v.recovered).0;
        if s !in l1.active { AddKeepsInv(l1, r, now, v.created); }
      } else {
        AddKeepsInv(l, r, now, v.created);
      }
    }
  }

  lemma TransitionKeepsInv(l: Ledger, id: Id, to: Status, outcome: Outcome, now: Time, contractOk: bool)
    requires LedgerInv(l)
    ensures LedgerInv(MoveRow(l, id, to, outcome, now, contractOk).0)
  {
    if id < |l.rows| {
      var r := Transition(l.rows[id], to, outcome, now, contractOk);
      if r.Ok? { StoreKeepsInv(l, id, r.value); }
    }
  }

  lemma FindActiveKeepsInv(l: Ledger, s: Subject, now: Time, contractOk: bool)
    requires LedgerInv(l)
    ensures LedgerInv(FindActive(l, s, now, contractOk).0)
  {
    if s in l.active {
      assert Active(l, s, l.active[s]);
      RecoverKeepsInv(l, l.active[s], now, contractOk);
    }
  }

  // ---------------------------------------------------------------------------------------------
  // When a subject can be invoked again
  // ---------------------------------------------------------------------------------------------

  /**
   * With valid arguments and contract-conforming rows, a creation succeeds exactly when the subject
   * has no active row or one that started over 600 seconds ago, and conflicts, changing nothing, when
   * it has a fresher one.  An old REQUESTED row then is FAILED and an old RUNNING row TIMED_OUT, now,
   * each with its one event; without an old row there is no event.
   */
  lemma CreateSucceedsIff(l: Ledger, r: Request, now: Time)
    requires LedgerInv(l) && Creatable(r)
    ensures var (l', result, events) := Create(l, r, now, Verdicts(true, true)); var s := SubjectOf(r);
      && (s !in l.active ==> result == Ok(|l.rows|) && events == [])
      && (s in l.active && now - l.rows[l.active[s]].startedAt <= 600_000_000 ==>
            result == Err(ActiveInvocationConflict) && l' == l && events == [])
      && (s in l.active && now - l.rows[l.active[s]].startedAt > 600_000_000 ==>
            result == Ok(|l.rows|) && l'.rows[l.active[s]] == AfterRecovery(l.rows[l.active[s]], now)
            && events == [RecoveryEvent(l.active[s], l'.rows[l.active[s]], now)])
      && (result.Ok? ==> |l'.rows| == |l.rows| + 1 && l'.rows[|l.rows|] == Invocation(r, Requested, now, None, NO_OUTCOME)
                         && s in l'.active && l'.active[s] == |l.rows|)
  {
    var s := SubjectOf(r);
    CreateKeepsInv(l, r, now, Verdicts(true, true));
    if s in l.active {
      assert Active(l, s, l.active[s]);
      RecoverKeepsInv(l, l.active[s], now, true);
    }
  }

  /** What becomes of an abandoned invocation: it never ran, or it ran out of time. */
  function AfterRecovery(i: Invocation, now: Time): Invocation {
    if i.status == Requested then
      i.(status := Failed, completedAt := Some(now),
         outcome := i.outcome.(errorCode := Some("STALE_RECOVERY_NEVER_DISPATCHED"), staleRecovery := true))
    else
      i.(status := TimedOut, completedAt := Some(now),
         outcome := i.outcome.(errorCode := Some("STALE_RECOVERY_TIMEOUT"), staleRecovery := true))
  }

  /** Every active row of a subject is REQUESTED or RUNNING, so the two cases above are all there are. */
  lemma ActiveIsRequestedOrRunning(l: Ledger, s: Subject)
    requires LedgerInv(l) && s in l.active
    ensures l.active[s] < |l.rows|
    ensures l.rows[l.active[s]].status == Requested || l.rows[l.active[s]].status == Running
  {
    assert Active(l, s, l.active[s]);
  }

  /**
   * Recovery of one row: an active row is recovered exactly when it started over 600 seconds ago,
   * into the terminal state that its own status allows, with its slot freed and exactly one event
   * about it; any other row is left alone.
   */
  lemma RecoveryMatchesStatus(l: Ledger, id: Id, now: Time)
    requires LedgerInv(l) && id < |l.rows|
    ensures var (l', done, events) := RecoverRow(l, id, now, true); var i := l.rows[id];
      var aged := (i.status == Requested || i.status == Running) && now - i.startedAt > 600_000_000;
      && done == Ok(aged)
      && (!aged ==> l' == l && events == [])
      && (aged ==> l'.rows == l.rows[id := AfterRecovery(i, now)] && SubjectOf(i.what) !in l'.active
                   && events == [Event("AI_INVOCATION_STALE_RECOVERED", now, "SYSTEM", "ai-invocation-stale-recovery",
                                       "AIInvocation", id, i.what.correlationId, None,
                                       map["task_id" := Text(i.what.taskId),
                                           "task_version" := Number(i.what.taskVersion),
                                           "recovered_status" := Text(if i.status == Requested then "FAILED" else "TIMED_OUT"),
                                           "error_code" := Text(if i.status == Requested then "STALE_RECOVERY_NEVER_DISPATCHED"
                                                                else "STALE_RECOVERY_TIMEOUT"),
                                           "stale_threshold" := Number(600_000_000)])])
  {
    RecoverKeepsInv(l, id, now, true);
  }

  /**
   * What a lookup answers: the active row of the subject while it started at most 600 seconds ago; an
   * older one is recovered, and then there is none.  A recovery that violates the contract raises.
   */
  lemma LookupMeans(l: Ledger, s: Subject, now: Time, contractOk: bool)
    requires LedgerInv(l)
    ensures var (l', found, events) := FindActive(l, s, now, contractOk);
      && (s !in l.active ==> found == Ok(None) && l' == l && events == [])
      && (s in l.active && now - l.rows[l.active[s]].startedAt <= 600_000_000 ==>
            found == Ok(Some(l.active[s])) && l' == l && events == [])
      && (s in l.active && now - l.rows[l.active[s]].startedAt > 600_000_000 && contractOk ==>
            found == Ok(None) && l'.rows[l.active[s]] == AfterRecovery(l.rows[l.active[s]], now) && s !in l'.active)
      && (s in l.active && now - l.rows[l.active[s]].startedAt > 600_000_000 && !contractOk ==>
            found == Err(ValidationError) && l' == l && events == [])
  {
    if s in l.active {
      assert Active(l, s, l.active[s]);
      RecoverKeepsInv(l, l.active[s], now, contractOk);
    }
  }

  /**
   * One transition: which moves there are, and what they leave of the row.  The request and its start
   * stay, a terminal status stamps the completion, and each passed outcome field replaces the old one.
   */
  lemma TransitionMeans(i: Invocation, to: Status, updates: Outcome, now: Time, contractOk: bool)
    ensures var r := Transition(i, to, updates, now, contractOk);
      var edge := || (i.status == Requested && (to == Running || to == Failed || to == Rejected || to == Cancelled))
                  || (i.status == Running && (to == Succeeded || to == Failed || to == TimedOut || to == Cancelled));
      && (r.Ok? <==> edge && contractOk)
      && (r.Err? ==> r.error == if edge then ValidationError else InvalidStateTransition)
      && (r.Ok? ==>
            && r.value.what == i.what && r.value.startedAt == i.startedAt && r.value.status == to
            && r.value.completedAt == (if to == Running then i.completedAt else Some(now))
            && r.value.outcome.errorCode == (if updates.errorCode == None then i.outcome.errorCode else updates.errorCode)
            && r.value.outcome.validation == (if updates.validation == None then i.outcome.validation else updates.validation)
            && r.value.outcome.output == (if updates.output == None then i.outcome.output else updates.output)
            && (r.value.outcome.staleRecovery <==> updates.staleRecovery || i.outcome.staleRecovery))
  {
    assert Terminal(to) <==> to != Requested && to != Running;
  }

  /** A transition of an unknown row raises NotFound, a refused one changes nothing, and any other stores exactly that row. */
  lemma MoveMeans(l: Ledger, id: Id, to: Status, outcome: Outcome, now: Time, contractOk: bool)
    requires LedgerInv(l)
    ensures var (l', r) := MoveRow(l, id, to, outcome, now, contractOk);
      && (id >= |l.rows| ==> l' == l && r == Err(NotFoundError))
      && (id < |l.rows| ==> r == Transition(l.rows[id], to, outcome, now, contractOk))
      && (r.Err? ==> l' == l)
      && (r.Ok? ==> id < |l.rows| && l'.rows == l.rows[id := r.value]
                    && (SubjectOf(l.rows[id].what) in l'.active <==> to == Running))
  {
    if id < |l.rows| { TransitionKeepsInv(l, id, to, outcome, now, contractOk); }
  }

  /** A creation that would store a row against its contract raises a validation error and adds no row. */
  lemma CreationNeedsContract(l: Ledger, r: Request, now: Time, v: Verdicts)
    requires LedgerInv(l) && Creatable(r)
    ensures var (l', result, events) := Create(l, r, now, v); var s := SubjectOf(r);
      var aged := s in l.active && now - l.rows[l.active[s]].startedAt > 600_000_000;
      && (aged && !v.recovered ==> result == Err(ValidationError) && l' == l && events == [])
      && ((s !in l.active || (aged && v.recovered)) && !v.created ==> result == Err(ValidationError) && |l'.rows| == |l.rows|)
  {
    var s := SubjectOf(r);
    if s in l.active {
      assert Active(l, s, l.active[s]);
      RecoverKeepsInv(l, l.active[s], now, v.recovered);
    }
  }

  /** Two invocations contend for one slot exactly when task, version and derived reference agree. */
  lemma SameSubjectIff(a: Request, b: Request)
    requires DerivePrimary(a.inputReferences).Ok? && DerivePrimary(b.inputReferences).Ok?
    ensures SubjectOf(a) == SubjectOf(b) <==>
      && a.taskId == b.taskId && a.taskVersion == b.taskVersion
      && DerivePrimary(a.inputReferences) == DerivePrimary(b.inputReferences)
  {}

  /**
   * What a creation refuses before it looks at any row: every combination of role, provider, alias
   * and backend but the four that exist, an unknown actor type, and references none of which names
   * an evidence item, intake, entity or conversation.
   */
  lemma CreateRefusesIff(l: Ledger, r: Request, now: Time)
    requires LedgerInv(l)
    ensures Creatable(r) <==>
      && (|| (r.role == "OPERATOR" && r.provider == "ANTHROPIC" && r.capabilityAlias == None && r.inferenceBackend == "MAC_LOCAL")
          || (r.role == "BACKGROUND" && r.provider == "LITELLM" && r.capabilityAlias == Some("bagman-fast")
              && r.inferenceBackend == "MAC_LOCAL")
          || (r.role == "BACKGROUND" && r.provider == "LITELLM" && r.capabilityAlias == Some("bagman-core")
              && r.inferenceBackend == "MAC_LOCAL")
          || (r.role == "BACKGROUND" && r.provider == "LITELLM" && r.capabilityAlias == Some("trinity-core")
              && r.inferenceBackend == "TRINITY_CORE_OVERFLOW"))
      && r.actorType in {"SYSTEM", "USER", "AGENT", "SERVICE", "EXTERNAL_SYSTEM"}
      && (NamesOne(r.inputReferences, "evidence_id") || NamesOne(r.inputReferences, "intake_id")
          || NamesOne(r.inputReferences, "entity_id") || NamesOne(r.inputReferences, "conversation_id"))
    ensures !Creatable(r) ==> Create(l, r, now, Verdicts(true, true)) == (l, Err(ValidationError), [])
    ensures Create(l, r, now, Verdicts(true, true)).1 == Err(ValidationError) ==> !Creatable(r)
  {
    hide Create, LedgerInv, SubjectOf;
    FourReferences(r.inputReferences);
    if Creatable(r) { CreateSucceedsIff(l, r, now); } else { RefusedAtOnce(l, r, now); }
  }

  /** The reference is a non-empty text. */
  predicate NamesOne(refs: map<string, Datum>, key: string) {
    key in refs && refs[key].Text? && refs[key].text != ""
  }

  /** The subject's reference: evidence before intake before entity before conversation. */
  lemma FourReferences(refs: map<string, Datum>)
    ensures DerivePrimary(refs) ==
      if NamesOne(refs, "evidence_id") then Ok(refs["evidence_id"].text)
      else if NamesOne(refs, "intake_id") then Ok(refs["intake_id"].text)
      else if NamesOne(refs, "entity_id") then Ok(refs["entity_id"].text)
      else if NamesOne(refs, "conversation_id") then Ok(refs["conversation_id"].text)
      else Err(ValidationError)
  {
    var k1, k2, k3 := REFERENCE_KEYS[1..], REFERENCE_KEYS[2..], REFERENCE_KEYS[3..];
    FirstOf(refs, REFERENCE_KEYS, "evidence_id", k1);
    FirstOf(refs, k1, "intake_id", k2);
    FirstOf(refs, k2, "entity_id", k3);
    FirstOf(refs, k3, "conversation_id", []);
  }

  lemma FirstOf(refs: map<string, Datum>, keys: seq<string>, first: string, rest: seq<string>)
    requires keys == [first] + rest
    ensures FirstUsable(refs, keys) == if NamesOne(refs, first) then Some(refs[first].text) else FirstUsable(refs, rest)
  {
    assert keys[1..] == rest;
  }

  lemma RefusedAtOnce(l: Ledger, r: Request, now: Time)
    requires !Creatable(r)
    ensures Create(l, r, now, Verdicts(true, true)) == (l, Err(ValidationError), [])
  {}

  // ---------------------------------------------------------------------------------------------
  // Histories
  // ---------------------------------------------------------------------------------------------

  datatype Op =
    | CreateOp(r: Request, now: Time, v: Verdicts)
    | TransitionOp(id: Id, to: Status, outcome: Outcome, now: Time, contractOk: bool)
    | FindOp(s: Subject, now: Time, contractOk: bool)

  function Step(l: Ledger, op: Op): Ledger {
    match op
    case CreateOp(r, now, v) => Create(l, r, now, v).0
    case TransitionOp(id, to, outcome, now, contractOk) => MoveRow(l, id, to, outcome, now, contractOk).0
    case FindOp(s, now, contractOk) => FindActive(l, s, now, contractOk).0
  }

  function Run(l: Ledger, ops: seq<Op>): Ledger
    decreases |ops|
  {
    if ops == [] then l else Run(Step(l, ops[0]), ops[1..])
  }

  lemma StepKeepsInv(l: Ledger, op: Op)
    requires LedgerInv(l)
    ensures LedgerInv(Step(l, op))
  {
    match op
    case CreateOp(r, now, v) => CreateKeepsInv(l, r, now, v);
    case TransitionOp(id, to, outcome, now, contractOk) => TransitionKeepsInv(l, id, to, outcome, now, contractOk);
    case FindOp(s, now, contractOk) => FindActiveKeepsInv(l, s, now, contractOk);
  }

  /** In every reachable state the index is exact and `completed_at` marks the terminal rows. */
  lemma {:induction false} RunKeepsInv(l: Ledger, ops: seq<Op>)
    requires LedgerInv(l)
    ensures LedgerInv(Run(l, ops))
    decreases |ops|
  {
    if ops != [] {
      StepKeepsInv(l, ops[0]);
      RunKeepsInv(Step(l, ops[0]), ops[1..]);
    }
  }

  lemma RecoverMovesRow(l: Ledger, target: Id, now: Time, contractOk: bool, id: Id)
    requires target < |l.rows| && id < |l.rows|
    ensures var l' := RecoverRow(l, target, now, contractOk).0;
      && |l'.rows| == |l.rows|
      && l'.rows[id].what == l.rows[id].what && l'.rows[id].startedAt == l.rows[id].startedAt
      && (l'.rows[id] == l.rows[id] || Allowed(l.rows[id].status, l'.rows[id].status))
  {
  }

  /** No call drops a row or rewrites its identity; a row is unchanged or moves along one table edge. */
  lemma StepMovesRow(l: Ledger, op: Op, id: Id)
    requires id < |l.rows|
    ensures |l.rows| <= |Step(l, op).rows|
    ensures var a, b := l.rows[id], Step(l, op).rows[id];
      && b.what == a.what && b.startedAt == a.startedAt
      && (b == a || Allowed(a.status, b.status))
  {
    match op
    case CreateOp(r, now, v) =>
      if Creatable(r) && SubjectOf(r) in l.active && l.active[SubjectOf(r)] < |l.rows| {
        RecoverMovesRow(l, l.active[SubjectOf(r)], now, v.recovered, id);
      }
    case TransitionOp(_, _, _, _, _) =>
    case FindOp(s, now, contractOk) =>
      if s in l.active && l.active[s] < |l.rows| {
        RecoverMovesRow(l, l.active[s], now, contractOk, id);
      }
  }

  /** The statuses that row `id` passes through, repeats removed. */
  function History(l: Ledger, ops: seq<Op>, id: Id): seq<Status>
    requires id < |l.rows|
    decreases |ops|
  {
    if ops == [] then [l.rows[id].status]
    else
      StepMovesRow(l, ops[0], id);
      var l' := Step(l, ops[0]);
      (if l'.rows[id].status == l.rows[id].status then [] else [l.rows[id].status]) + History(l', ops[1..], id)
  }

  predicate Path(statuses: seq<Status>) {
    forall i :: 0 <= i < |statuses| - 1 ==> Allowed(statuses[i], statuses[i + 1])
  }

  function LongestPath(s: Status): nat {
    if Terminal(s) then 1 else if s == Running then 2 else 3
  }

  /** Every row's status history is a path in the transition table, at most three statuses long. */
  lemma {:induction false} HistoryIsPath(l: Ledger, ops: seq<Op>, id: Id)
    requires id < |l.rows|
    ensures var h := History(l, ops, id);
      h != [] && h[0] == l.rows[id].status && Path(h) && |h| <= LongestPath(h[0])
    decreases |ops|
  {
    if ops != [] {
      StepMovesRow(l, ops[0], id);
      HistoryIsPath(Step(l, ops[0]), ops[1..], id);
    }
  }

  /** A RUNNING row that has not ended is exactly as it was: other callers can end it, nothing else. */
  lemma {:induction false} RunningUntouched(l: Ledger, ops: seq<Op>, id: Id)
    requires id < |l.rows| && l.rows[id].status == Running
    requires id < |Run(l, ops).rows| && !Terminal(Run(l, ops).rows[id].status)
    ensures Run(l, ops).rows[id] == l.rows[id]
    decreases |ops|
  {
    if ops != [] {
      StepMovesRow(l, ops[0], id);
      if Terminal(Step(l, ops[0]).rows[id].status) {
        TerminalForEver(Step(l, ops[0]), ops[1..], id);
      } else {
        RunningUntouched(Step(l, ops[0]), ops[1..], id);
      }
    }
  }

  /** A terminal row never changes again. */
  lemma {:induction false} TerminalForEver(l: Ledger, ops: seq<Op>, id: Id)
    requires id < |l.rows| && Terminal(l.rows[id].status)
    ensures id < |Run(l, ops).rows| && Run(l, ops).rows[id] == l.rows[id]
    decreases |ops|
  {
    if ops != [] {
      StepMovesRow(l, ops[0], id);
      TerminalForEver(Step(l, ops[0]), ops[1..], id);
    }
  }

  // ---------------------------------------------------------------------------------------------
  // The in-memory repository
  // ---------------------------------------------------------------------------------------------

  class InvocationRepository {
    var rows: seq<Invocation>
    var active: map<Subject, Id>
    const audit: AuditLog

    ghost function Snapshot(): Ledger
      reads this
    {
      Ledger(rows, active)
    }

    ghost predicate Valid()
      reads this, audit
    {
      LedgerInv(Snapshot()) && audit.Valid()
    }

    constructor (audit: AuditLog)
      requires audit.Valid()
      ensures Valid() && Snapshot() == EMPTY && this.audit == audit
    {
      rows, active := [], map[];
      this.audit := audit;
    }

    /** Transitions a stale row, clears its slot and audits the recovery. */
    method RecoverIfStale(id: Id, now: Time, contractOk: bool) returns (r: Result<bool, Error>)
      requires Valid() && id < |rows|
      modifies this, audit
      ensures Valid()
      ensures var (l, result, events) := RecoverRow(old(Snapshot()), id, now, contractOk);
        Snapshot() == l && r == result && audit.events == old(audit.events) + events
    {
      RecoverKeepsInv(Snapshot(), id, now, contractOk);
      var row := rows[id];
      if !IsStale(row, now) { return Ok(false); }
      var recovered := RecoverStale(row, now, contractOk);
      if recovered.Err? { return Err(recovered.error); }
      rows := rows[id := recovered.value];
      var subject := SubjectOf(recovered.value.what);
      if subject in active && active[subject] == id {
        active := active - {subject};
      }
      var _ := audit.RecordAuditEvent(RecoveryEvent(id, recovered.value, now), true);
      r := Ok(true);
    }

    method CreateInvocation(request: Request, now: Time, v: Verdicts) returns (r: Result<Id, Error>)
      requires Valid()
      modifies this, audit
      ensures Valid()
      ensures var (l, result, events) := Create(old(Snapshot()), request, now, v);
        Snapshot() == l && r == result && audit.events == old(audit.events) + events
    {
      CreateKeepsInv(Snapshot(), request, now, v);
      if !ValidPairing(request.role, request.provider, request.capabilityAlias, request.inferenceBackend) {
        return Err(ValidationError);
      }
      if request.actorType !in ACTOR_TYPES { return Err(ValidationError); }
      var primary := DerivePrimary(request.inputReferences);
      if primary.Err? { return Err(ValidationError); }
      var subject := Subject(request.taskId, request.taskVersion, primary.value);
      if subject in active {
        assert Active(Snapshot(), subject, active[subject]);
        var recovered := RecoverIfStale(active[subject], now, v.recovered);
        if recovered.Err? { return Err(recovered.error); }
      }
      if subject in active { return Err(ActiveInvocationConflict); }
      if !v.created { return Err(ValidationError); }
      r := Ok(|rows|);
      active := active[subject := |rows|];
      rows := rows + [NewInvocation(request, now)];
    }

    method GetInvocation(id: Id) returns (r: Result<Invocation, Error>)
      ensures r == if id < |rows| then Ok(rows[id]) else Err(NotFoundError)
    {
      r := if id < |rows| then Ok(rows[id]) else Err(NotFoundError);
    }

    method TransitionStatus(id: Id, to: Status, outcome: Outcome, now: Time, contractOk: bool)
      returns (r: Result<Invocation, Error>)
      requires Valid()
      modifies this
      ensures Valid()
      ensures (Snapshot(), r) == MoveRow(old(Snapshot()), id, to, outcome, now, contractOk)
    {
      TransitionKeepsInv(Snapshot(), id, to, outcome, now, contractOk);
      if id >= |rows| { return Err(NotFoundError); }
      r := Transition(rows[id], to, outcome, now, contractOk);
      if r.Err? { return; }
      rows := rows[id := r.value];
      if Terminal(to) {
        var subject := SubjectOf(r.value.what);
        if subject in active && active[subject] == id {
          active := active - {subject};
        }
      }
    }

    method FindActiveInvocation(subject: Subject, now: Time, contractOk: bool) returns (r: Result<Option<Id>, Error>)
      requires Valid()
      modifies this, audit
      ensures Valid()
      ensures var (l, result, events) := FindActive(old(Snapshot()), subject, now, contractOk);
        Snapshot() == l && r == result && audit.events == old(audit.events) + events
    {
      FindActiveKeepsInv(Snapshot(), subject, now, contractOk);
      if subject !in active { return Ok(None); }
      var id := active[subject];
      assert Active(Snapshot(), subject, id);
      var recovered := RecoverIfStale(id, now, contractOk);
      if recovered.Err? { return Err(recovered.error); }
      r := if recovered.value then Ok(None) else Ok(Some(id));
    }
  }
}
