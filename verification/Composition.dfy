/** Process-wide singletons under double-checked locking (app/api/composition.py), as thread steps. */
module Composition {
  import opened Common

  type Thread = nat

  /** What a caller asks for: the composition itself, or one of the resolve-or-create identifiers. */
  datatype Slot = TheComposition | ManualSource | SeedEntities | Mailbox(mailboxId: Id)

  /** The well-known things that may exist once: the composition object, source rows, entity rows. */
  datatype Name = Built | ManualRow | EntityRow(canonicalName: string) | MailboxRow(mailboxId: Id)

  const SEED_NAMES: seq<string> := ["INFOSECURS_LIMITED", "NOUSTAI_LIMITED", "MATTHEW_SCOTT_PERSONAL"]

  function Names(slot: Slot): seq<Name> {
    match slot
    case TheComposition => [Built]
    case ManualSource => [ManualRow]
    case SeedEntities => [EntityRow(SEED_NAMES[0]), EntityRow(SEED_NAMES[1]), EntityRow(SEED_NAMES[2])]
    case Mailbox(id) => [MailboxRow(id)]
  }

  /** `_lock` guards everything but the mailbox sources, which have `_mailbox_source_lock`. */
  datatype Lock = Main | MailboxLock

  function LockOf(slot: Slot): Lock { if slot.Mailbox? then MailboxLock else Main }

  /** A stored row; an entity row of an older release may still lack its accounting configuration. */
  datatype Row = Row(id: Id, configured: bool)

  /** Where a call is; `got` holds the identifiers resolved so far. */
  datatype Pc =
    | Start
    | WantLock
    | Recheck
    | Build
    | Find(got: seq<Id>)
    | Backfill(got: seq<Id>)
    | Create(got: seq<Id>)
    | Publish(got: seq<Id>)
    | Leave(value: seq<Id>)
    | LeaveRaising
    | Done(value: seq<Id>)
    | Raised

  datatype Call = Call(slot: Slot, pc: Pc)

  datatype State = State(
    memo: map<Slot, seq<Id>>,
    held: map<Lock, Thread>,
    rows: map<Name, Row>,
    created: multiset<Name>,
    nextId: Id,
    calls: map<Thread, Call>,
    returned: seq<(Slot, seq<Id>)>)

  /** How a call into a repository or a build ends; a raising write may or may not have taken effect. */
  datatype Outcome = Succeeds | Raises | RaisesAfterEffect

  datatype Event = Enter(slot: Slot) | Advance(outcome: Outcome)

  /** What one step changes in the shared state. */
  datatype Effect =
    | NoEffect
    | Acquire
    | Release
    | Return(value: seq<Id>)
    | ReleaseAndReturn(value: seq<Id>)
    | AddRow(name: Name)
    | Configure(name: Name)
    | Memoise(value: seq<Id>)

  function Deliver(s: State, slot: Slot, value: seq<Id>): State {
    s.(returned := s.returned + [(slot, value)])
  }

  function Free(s: State, slot: Slot): State {
    s.(held := s.held - {LockOf(slot)})
  }

  function Apply(s: State, t: Thread, slot: Slot, e: Effect): State {
    match e
    case NoEffect => s
    case Acquire => s.(held := s.held[LockOf(slot) := t])
    case Release => Free(s, slot)
    case Return(value) => Deliver(s, slot, value)
    case ReleaseAndReturn(value) => Deliver(Free(s, slot), slot, value)
    case AddRow(name) =>
      s.(rows := s.rows[name := Row(s.nextId, true)], created := s.created + multiset{name}, nextId := s.nextId + 1)
    case Configure(name) =>
      if name in s.rows then s.(rows := s.rows[name := s.rows[name].(configured := true)]) else s
    case Memoise(value) => s.(memo := s.memo[slot := value])
  }

  function Resolved(slot: Slot, got: seq<Id>): Pc {
    if |got| < |Names(slot)| then Find(got) else Publish(got)
  }

  /** The name that a call resolves next. */
  function NextName(slot: Slot, got: seq<Id>): Name {
    if |got| < |Names(slot)| then Names(slot)[|got|] else Built
  }

  /** One atomic step of a call: what it changes, and where it is then. */
  function Move(s: State, slot: Slot, pc: Pc, o: Outcome): (Effect, Pc) {
    match pc
    case Start => if slot in s.memo then (Return(s.memo[slot]), Done(s.memo[slot])) else (NoEffect, WantLock)
    case WantLock => if LockOf(slot) in s.held then (NoEffect, WantLock) else (Acquire, Recheck)
    case Recheck =>
      if slot in s.memo then (NoEffect, Leave(s.memo[slot]))
      else (NoEffect, if slot.TheComposition? then Build else Find([]))
    case Build =>
      if o.Succeeds? then (AddRow(Built), Publish([s.nextId])) else (NoEffect, LeaveRaising)
    case Find(got) =>
      var name := NextName(slot, got);
      if !o.Succeeds? then (NoEffect, LeaveRaising)
      else if name !in s.rows then (NoEffect, Create(got))
      else if !s.rows[name].configured then (NoEffect, Backfill(got))
      else (NoEffect, Resolved(slot, got + [s.rows[name].id]))
    case Backfill(got) =>
      var name := NextName(slot, got);
      if o.Raises? || name !in s.rows then (NoEffect, LeaveRaising)
      else (Configure(name), if o.Succeeds? then Resolved(slot, got + [s.rows[name].id]) else LeaveRaising)
    case Create(got) =>
      if o.Raises? then (NoEffect, LeaveRaising)
      else (AddRow(NextName(slot, got)), if o.Succeeds? then Resolved(slot, got + [s.nextId]) else LeaveRaising)
    case Publish(got) => (Memoise(got), Leave(got))
    case Leave(value) => (ReleaseAndReturn(value), Done(value))
    case LeaveRaising => (Release, Raised)
    case Done(_) => (NoEffect, pc)
    case Raised => (NoEffect, pc)
  }

  function Step(s: State, t: Thread, o: Outcome): State
    requires t in s.calls
  {
    var c := s.calls[t];
    var (effect, pc) := Move(s, c.slot, c.pc, o);
    Apply(s, t, c.slot, effect).(calls := s.calls[t := Call(c.slot, pc)])
  }

  predicate Idle(s: State, t: Thread) {
    t in s.calls ==> s.calls[t].pc.Done? || s.calls[t].pc.Raised?
  }

  /** A thread enters one of the four functions when it is in none, or takes one step of its call. */
  function Next(s: State, t: Thread, e: Event): State {
    match e
    case Enter(slot) => if Idle(s, t) then s.(calls := s.calls[t := Call(slot, Start)]) else s
    case Advance(o) => if t in s.calls then Step(s, t, o) else s
  }

  function Run(s: State, trace: seq<(Thread, Event)>): State
    decreases |trace|
  {
    if trace == [] then s else Run(Next(s, trace[0].0, trace[0].1), trace[1..])
  }

  /** What earlier processes may have left: any rows, of which only entity rows can lack configuration. */
  predicate Leftover(rows: map<Name, Row>) {
    Built !in rows && forall n :: n in rows && !n.EntityRow? ==> rows[n].configured
  }

  /** A cold process. */
  function Cold(rows: map<Name, Row>, nextId: Id): State {
    State(map[], map[], rows, multiset{}, nextId, map[], [])
  }

  // ---------------------------------------------------------------------------------------------
  // The invariant
  // ---------------------------------------------------------------------------------------------

  predicate Inside(pc: Pc) {
    !pc.Start? && !pc.WantLock? && !pc.Done? && !pc.Raised?
  }

  predicate Working(pc: Pc) {
    pc.Build? || pc.Find? || pc.Backfill? || pc.Create? || pc.Publish?
  }

  /** The first |got| names of the slot have configured rows with exactly these identifiers. */
  ghost predicate Holds(rows: map<Name, Row>, slot: Slot, got: seq<Id>) {
    && |got| <= |Names(slot)|
    && forall i :: 0 <= i < |got| ==> Names(slot)[i] in rows && rows[Names(slot)[i]] == Row(got[i], true)
  }

  ghost predicate Whole(rows: map<Name, Row>, slot: Slot, value: seq<Id>) {
    Holds(rows, slot, value) && |value| == |Names(slot)|
  }

  ghost predicate PcOk(memo: map<Slot, seq<Id>>, rows: map<Name, Row>, slot: Slot, pc: Pc) {
    match pc
    case Start => true
    case WantLock => true
    case Recheck => true
    case Build => slot.TheComposition? && Built !in rows
    case Find(got) => !slot.TheComposition? && Holds(rows, slot, got) && |got| < |Names(slot)|
    case Backfill(got) =>
      && !slot.TheComposition? && Holds(rows, slot, got) && |got| < |Names(slot)|
      && Names(slot)[|got|] in rows && !rows[Names(slot)[|got|]].configured
    case Create(got) =>
      !slot.TheComposition? && Holds(rows, slot, got) && |got| < |Names(slot)| && Names(slot)[|got|] !in rows
    case Publish(got) => Whole(rows, slot, got)
    case Leave(value) => slot in memo && memo[slot] == value
    case LeaveRaising => true
    case Done(value) => slot in memo && memo[slot] == value
    case Raised => true
  }

  ghost predicate CallOk(s: State, t: Thread)
    requires t in s.calls
  {
    var c := s.calls[t];
    && (Inside(c.pc) ==> LockOf(c.slot) in s.held && s.held[LockOf(c.slot)] == t)
    && (Working(c.pc) || c.pc.LeaveRaising? ==> c.slot !in s.memo)
    && PcOk(s.memo, s.rows, c.slot, c.pc)
  }

  ghost predicate CallsOk(s: State) {
    forall t: Thread :: t in s.calls ==> CallOk(s, t)
  }

  ghost predicate LocksOk(s: State) {
    forall l :: l in s.held ==>
      s.held[l] in s.calls && Inside(s.calls[s.held[l]].pc) && LockOf(s.calls[s.held[l]].slot) == l
  }

  ghost predicate MemoOk(s: State) {
    && (forall slot :: slot in s.memo ==> Whole(s.rows, slot, s.memo[slot]))
    && (forall i :: 0 <= i < |s.returned| ==> s.returned[i].0 in s.memo && s.memo[s.returned[i].0] == s.returned[i].1)
  }

  /** Some thread has built the composition and is about to publish it. */
  predicate Publishing(s: State) {
    && Main in s.held && s.held[Main] in s.calls
    && s.calls[s.held[Main]].slot.TheComposition? && s.calls[s.held[Main]].pc.Publish?
  }

  /** Rows of earlier processes stay; this process created exactly one row for every other name that has one. */
  ghost predicate Counted(s: State, initial: map<Name, Row>) {
    && (forall n :: n in initial ==> n in s.rows && s.rows[n].id == initial[n].id)
    && (forall n :: s.created[n] == if n in s.rows && n !in initial then 1 else 0)
  }

  ghost predicate RowsOk(s: State, initial: map<Name, Row>) {
    && Counted(s, initial)
    && (Built in s.rows ==> TheComposition in s.memo || Publishing(s))
  }

  ghost predicate Inv(s: State, initial: map<Name, Row>) {
    CallsOk(s) && LocksOk(s) && MemoOk(s) && RowsOk(s, initial)
  }

  lemma ColdInv(rows: map<Name, Row>, nextId: Id)
    requires Built !in rows
    ensures Inv(Cold(rows, nextId), rows)
  {}

  // ---------------------------------------------------------------------------------------------
  // Every step keeps the invariant
  // ---------------------------------------------------------------------------------------------

  /** From s to after only the given slot's memo entry and rows change, and nothing resolved is lost. */
  ghost predicate Grows(s: State, after: State, slot: Slot) {
    && (forall x :: x in s.memo ==> x in after.memo && after.memo[x] == s.memo[x])
    && (forall x :: x in after.memo && x != slot ==> x in s.memo)
    && (forall n :: n in s.rows ==> n in after.rows && after.rows[n].id == s.rows[n].id)
    && (forall n :: n in s.rows && s.rows[n].configured ==> after.rows[n].configured)
    && (forall n :: n in after.rows && n !in Names(slot) ==> n in s.rows && after.rows[n] == s.rows[n])
  }

  lemma NamesOnce(a: Slot, b: Slot, i: nat)
    requires a != b && i < |Names(a)|
    ensures Names(a)[i] !in Names(b)
  {}

  /** When a call at pc may have an effect. */
  ghost predicate Allows(s: State, slot: Slot, pc: Pc, e: Effect) {
    match e
    case NoEffect => true
    case Acquire => pc.WantLock? && LockOf(slot) !in s.held
    case Release => pc.LeaveRaising?
    case Return(value) => slot in s.memo && s.memo[slot] == value
    case ReleaseAndReturn(value) => pc.Leave? && slot in s.memo && s.memo[slot] == value
    case AddRow(name) => Working(pc) && name in Names(slot) && name !in s.rows
    case Configure(name) => Working(pc) && name in Names(slot) && name in s.rows
    case Memoise(value) => Working(pc) && slot !in s.memo && Whole(s.rows, slot, value)
  }

  lemma MoveIsAllowed(s: State, t: Thread, o: Outcome)
    requires t in s.calls && CallOk(s, t)
    ensures var c := s.calls[t]; Allows(s, c.slot, c.pc, Move(s, c.slot, c.pc, o).0)
  {
    hide Resolved, Holds;
    var c := s.calls[t];
    if c.pc.Find? || c.pc.Backfill? || c.pc.Create? {
      assert Names(c.slot)[|c.pc.got|] in Names(c.slot);
    }
    if c.pc.Build? { assert Names(c.slot)[0] in Names(c.slot); }
  }

  lemma ApplyGrows(s: State, t: Thread, slot: Slot, pc: Pc, e: Effect)
    requires Allows(s, slot, pc, e)
    ensures Grows(s, Apply(s, t, slot, e), slot)
  {
    hide Names, Whole;
  }

  /** Outside the critical section nothing shared but the log of returns and the lock itself changes. */
  ghost predicate Framed(s: State, after: State, slot: Slot, pc: Pc) {
    && after.calls == s.calls
    && (forall l: Lock :: l != LockOf(slot) ==> (l in after.held <==> l in s.held) && (l in s.held ==> after.held[l] == s.held[l]))
    && (!Working(pc) ==> after.memo == s.memo && after.rows == s.rows && after.created == s.created)
    && (!Inside(pc) && LockOf(slot) in s.held ==> after.held == s.held)
  }

  lemma ApplyHeld(s: State, t: Thread, slot: Slot, e: Effect)
    ensures Apply(s, t, slot, e).held ==
            if e.Acquire? then s.held[LockOf(slot) := t]
            else if e.Release? || e.ReleaseAndReturn? then s.held - {LockOf(slot)}
            else s.held
  {}

  lemma ApplyFields(s: State, t: Thread, slot: Slot, e: Effect)
    ensures var after := Apply(s, t, slot, e);
      && after.calls == s.calls
      && (after.memo == s.memo || e.Memoise?)
      && (after.rows == s.rows || e.AddRow? || e.Configure?)
      && (after.created == s.created || e.AddRow?)
      && (after.returned == s.returned || e.Return? || e.ReleaseAndReturn?)
  {}

  lemma ApplyFrame(s: State, t: Thread, slot: Slot, pc: Pc, e: Effect)
    requires Allows(s, slot, pc, e)
    ensures Framed(s, Apply(s, t, slot, e), slot, pc) && Apply(s, t, slot, e).calls == s.calls
  {
    hide Names, Whole, Apply;
    ApplyHeld(s, t, slot, e);
    ApplyFields(s, t, slot, e);
  }

  lemma HoldsGrows(s: State, after: State, slot: Slot, other: Slot, got: seq<Id>)
    requires Grows(s, after, slot) && Holds(s.rows, other, got)
    ensures Holds(after.rows, other, got)
  {
    hide Names;
    forall i | 0 <= i < |got| ensures Names(other)[i] in after.rows && after.rows[Names(other)[i]] == Row(got[i], true) {
      var n := Names(other)[i];
      assert n in s.rows;
    }
  }

  /** What one thread does, inside its lock, does not disturb another thread's call. */
  lemma OtherCallsOk(s: State, after: State, t: Thread, u: Thread)
    requires t in s.calls && u in s.calls && u != t && CallOk(s, t) && CallOk(s, u)
    requires Grows(s, after, s.calls[t].slot) && Framed(s, after, s.calls[t].slot, s.calls[t].pc)
    ensures CallOk(after, u)
  {
    hide Names;
    var slot, other, pc := s.calls[t].slot, s.calls[u].slot, s.calls[u].pc;
    if Working(s.calls[t].pc) && (Working(pc) || pc.LeaveRaising?) {
      assert other != slot;
      if Working(pc) { NextNameKept(s, after, slot, other, pc); }
    }
    if pc.Find? || pc.Backfill? || pc.Create? || pc.Publish? {
      HoldsGrows(s, after, slot, other, pc.got);
    }
  }

  lemma NextNameKept(s: State, after: State, slot: Slot, other: Slot, pc: Pc)
    requires Grows(s, after, slot) && slot != other && Working(pc) && PcOk(s.memo, s.rows, other, pc)
    ensures pc.Build? ==> Built !in after.rows
    ensures pc.Create? ==> Names(other)[|pc.got|] !in after.rows
    ensures pc.Backfill? ==> Names(other)[|pc.got|] in after.rows && !after.rows[Names(other)[|pc.got|]].configured
  {
    if pc.Build? {
      NamesOnce(other, slot, 0);
    } else if !pc.Publish? {
      NamesOnce(other, slot, |pc.got|);
    }
  }

  lemma OwnPcOk(s: State, t: Thread, o: Outcome)
    requires t in s.calls && CallOk(s, t) && MemoOk(s)
    requires s.calls[t] == Call(TheComposition, Recheck) && Built in s.rows ==> TheComposition in s.memo
    ensures var c := s.calls[t]; var (effect, pc) := Move(s, c.slot, c.pc, o); var after := Apply(s, t, c.slot, effect);
      PcOk(after.memo, after.rows, c.slot, pc) && (Working(pc) || pc.LeaveRaising? ==> c.slot !in after.memo)
  {
    var c := s.calls[t];
    if c.pc.Find? || c.pc.Backfill? || c.pc.Create? {
      ResolveOk(s, t, o);
      StaysUnset(s, t, o);
    } else {
      OuterPcOk(s, t, o);
    }
  }

  /** While a call resolves names its slot stays out of the memo. */
  lemma StaysUnset(s: State, t: Thread, o: Outcome)
    requires t in s.calls && CallOk(s, t) && (s.calls[t].pc.Find? || s.calls[t].pc.Backfill? || s.calls[t].pc.Create?)
    ensures var c := s.calls[t]; c.slot !in Apply(s, t, c.slot, Move(s, c.slot, c.pc, o).0).memo
  {
    hide Names, NextName, Resolved, PcOk;
  }

  /** The steps before and after the names are resolved. */
  lemma OuterPcOk(s: State, t: Thread, o: Outcome)
    requires t in s.calls && CallOk(s, t) && MemoOk(s)
    requires !s.calls[t].pc.Find? && !s.calls[t].pc.Backfill? && !s.calls[t].pc.Create?
    requires s.calls[t] == Call(TheComposition, Recheck) && Built in s.rows ==> TheComposition in s.memo
    ensures var c := s.calls[t]; var (effect, pc) := Move(s, c.slot, c.pc, o); var after := Apply(s, t, c.slot, effect);
      PcOk(after.memo, after.rows, c.slot, pc) && (Working(pc) || pc.LeaveRaising? ==> c.slot !in after.memo)
  {
    hide Whole, Holds, Names, NextName, Resolved;
    var c := s.calls[t];
    NothingHeld(s.rows, c.slot);
    BuiltIsWhole(s.rows, s.nextId);
  }

  lemma NothingHeld(rows: map<Name, Row>, slot: Slot)
    ensures Holds(rows, slot, []) && |Names(slot)| > 0
  {}

  lemma BuiltIsWhole(rows: map<Name, Row>, id: Id)
    ensures Whole(rows[Built := Row(id, true)], TheComposition, [id])
  {}

  lemma ResolveOk(s: State, t: Thread, o: Outcome)
    requires t in s.calls && CallOk(s, t) && (s.calls[t].pc.Find? || s.calls[t].pc.Backfill? || s.calls[t].pc.Create?)
    ensures var c := s.calls[t]; var (effect, pc) := Move(s, c.slot, c.pc, o); var after := Apply(s, t, c.slot, effect);
      PcOk(after.memo, after.rows, c.slot, pc)
  {
    hide Names, Holds, Resolved;
    var c := s.calls[t];
    var effect := Move(s, c.slot, c.pc, o).0;
    var after := Apply(s, t, c.slot, effect);
    MoveIsAllowed(s, t, o);
    ApplyGrows(s, t, c.slot, c.pc, effect);
    HoldsGrows(s, after, c.slot, c.slot, c.pc.got);
    var name := Names(c.slot)[|c.pc.got|];
    if name in after.rows && after.rows[name].configured {
      HoldsOneMore(after.rows, c.slot, c.pc.got);
      ResolvedOk(after.memo, after.rows, c.slot, c.pc.got + [after.rows[name].id]);
    }
  }

  lemma ResolvedOk(memo: map<Slot, seq<Id>>, rows: map<Name, Row>, slot: Slot, got: seq<Id>)
    requires !slot.TheComposition? && Holds(rows, slot, got)
    ensures PcOk(memo, rows, slot, Resolved(slot, got))
  {
    hide Names;
  }

  lemma HoldsOneMore(rows: map<Name, Row>, slot: Slot, got: seq<Id>)
    requires Holds(rows, slot, got) && |got| < |Names(slot)|
    ensures var name := Names(slot)[|got|];
      name in rows && rows[name].configured ==> Holds(rows, slot, got + [rows[name].id])
  {
    hide Names;
  }

  /** A call stays inside its critical section until it releases the lock. */
  lemma StaysInside(s: State, slot: Slot, pc: Pc, o: Outcome)
    ensures var (effect, next) := Move(s, slot, pc, o);
      Inside(next) <==> effect.Acquire? || (Inside(pc) && !effect.Release? && !effect.ReleaseAndReturn?)
  {
    hide Names, NextName;
  }

  lemma StepKeepsLocks(s: State, t: Thread, o: Outcome)
    requires t in s.calls && CallOk(s, t) && LocksOk(s)
    ensures LocksOk(Step(s, t, o))
  {
    hide Move, Apply, PcOk, Inside;
    var c, after := s.calls[t], Step(s, t, o);
    var effect := Move(s, c.slot, c.pc, o).0;
    StaysInside(s, c.slot, c.pc, o);
    ApplyHeld(s, t, c.slot, effect);
    forall l | l in after.held
      ensures after.held[l] in after.calls && Inside(after.calls[after.held[l]].pc) && LockOf(after.calls[after.held[l]].slot) == l
    {
      assert (l in s.held && s.held[l] == after.held[l]) || effect.Acquire?;
    }
  }

  lemma StepKeepsMemo(s: State, t: Thread, o: Outcome)
    requires t in s.calls && CallOk(s, t) && MemoOk(s)
    ensures MemoOk(Step(s, t, o))
  {
    hide Move, Whole;
    var c := s.calls[t];
    var effect := Move(s, c.slot, c.pc, o).0;
    MoveIsAllowed(s, t, o);
    ApplyGrows(s, t, c.slot, c.pc, effect);
    ApplyKeepsMemo(s, t, c.slot, c.pc, effect);
  }

  lemma ApplyKeepsMemo(s: State, t: Thread, slot: Slot, pc: Pc, e: Effect)
    requires Allows(s, slot, pc, e) && MemoOk(s)
    ensures MemoOk(Apply(s, t, slot, e))
  {
    hide Names;
    ApplyGrows(s, t, slot, pc, e);
    var after := Apply(s, t, slot, e);
    forall x | x in after.memo ensures Whole(after.rows, x, after.memo[x]) {
      if x in s.memo { HoldsGrows(s, after, slot, x, s.memo[x]); }
    }
  }

  lemma ApplyKeepsCounts(s: State, t: Thread, slot: Slot, pc: Pc, e: Effect, initial: map<Name, Row>)
    requires Allows(s, slot, pc, e) && Counted(s, initial)
    ensures Counted(Apply(s, t, slot, e), initial)
  {
    hide Names, Whole;
  }

  lemma StepKeepsBuilt(s: State, t: Thread, o: Outcome)
    requires t in s.calls && CallOk(s, t) && LocksOk(s)
    requires Built in s.rows ==> TheComposition in s.memo || Publishing(s)
    ensures Built in Step(s, t, o).rows ==> TheComposition in Step(s, t, o).memo || Publishing(Step(s, t, o))
  {
    hide Holds;
    var c := s.calls[t];
    MoveIsAllowed(s, t, o);
    if c.slot.TheComposition? {
      CompositionMoves(s, t, o);
    } else {
      assert Built !in Names(c.slot);
      ApplyFrame(s, t, c.slot, c.pc, Move(s, c.slot, c.pc, o).0);
      ApplyGrows(s, t, c.slot, c.pc, Move(s, c.slot, c.pc, o).0);
      hide Names, Move, Apply, Allows;
    }
  }

  lemma CompositionMoves(s: State, t: Thread, o: Outcome)
    requires t in s.calls && CallOk(s, t) && LocksOk(s) && s.calls[t].slot.TheComposition?
    requires Built in s.rows ==> TheComposition in s.memo || Publishing(s)
    ensures Built in Step(s, t, o).rows ==> TheComposition in Step(s, t, o).memo || Publishing(Step(s, t, o))
  {
    hide Holds, Names, NextName, Resolved;
  }

  lemma StepKeepsRows(s: State, t: Thread, o: Outcome, initial: map<Name, Row>)
    requires t in s.calls && CallOk(s, t) && LocksOk(s) && RowsOk(s, initial)
    ensures RowsOk(Step(s, t, o), initial)
  {
    hide Move, Apply, Allows, PcOk;
    var c := s.calls[t];
    MoveIsAllowed(s, t, o);
    ApplyKeepsCounts(s, t, c.slot, c.pc, Move(s, c.slot, c.pc, o).0, initial);
    StepKeepsBuilt(s, t, o);
  }

  lemma NextKeepsInv(s: State, t: Thread, e: Event, initial: map<Name, Row>)
    requires Inv(s, initial)
    ensures Inv(Next(s, t, e), initial)
  {
    hide Step, PcOk, MemoOk, RowsOk;
    if e.Advance? && t in s.calls {
      var o := e.outcome;
      EveryCallOk(s, t, o, initial);
      StepKeepsLocks(s, t, o);
      StepKeepsMemo(s, t, o);
      StepKeepsRows(s, t, o, initial);
    } else {
      EnterKeepsInv(s, t, e, initial);
    }
  }

  lemma EveryCallOk(s: State, t: Thread, o: Outcome, initial: map<Name, Row>)
    requires Inv(s, initial) && t in s.calls
    ensures CallsOk(Step(s, t, o))
  {
    hide Move, Apply, Allows, PcOk, MemoOk, Grows, Framed, Counted;
    var c := s.calls[t];
    var effect := Move(s, c.slot, c.pc, o).0;
    MoveIsAllowed(s, t, o);
    ApplyGrows(s, t, c.slot, c.pc, effect);
    ApplyFrame(s, t, c.slot, c.pc, effect);
    OwnPcOk(s, t, o);
    OwnLock(s, t, o);
    forall u: Thread | u in Step(s, t, o).calls && u != t ensures CallOk(Step(s, t, o), u) {
      OtherCallsOk(s, Apply(s, t, c.slot, effect), t, u);
    }
  }

  lemma OwnLock(s: State, t: Thread, o: Outcome)
    requires t in s.calls && CallOk(s, t)
    ensures var c := s.calls[t]; var (effect, pc) := Move(s, c.slot, c.pc, o); var after := Apply(s, t, c.slot, effect);
      Inside(pc) ==> LockOf(c.slot) in after.held && after.held[LockOf(c.slot)] == t
  {
    hide Names, PcOk;
  }

  lemma StartOk(memo: map<Slot, seq<Id>>, rows: map<Name, Row>, slot: Slot)
    ensures PcOk(memo, rows, slot, Start)
  {}

  lemma EnterKeepsInv(s: State, t: Thread, e: Event, initial: map<Name, Row>)
    requires Inv(s, initial) && (e.Enter? || t !in s.calls)
    ensures Inv(Next(s, t, e), initial)
  {
    hide Names, PcOk, Whole, Counted;
    var after := Next(s, t, e);
    if e.Enter? { StartOk(s.memo, s.rows, e.slot); }
    assert forall u: Thread :: u in after.calls && u != t ==> u in s.calls && CallOk(s, u);
    assert Counted(s, initial) ==> Counted(after, initial) by { SameCounts(s, after, initial); }
  }

  lemma SameCounts(s: State, after: State, initial: map<Name, Row>)
    ensures s.rows == after.rows && s.created == after.created && Counted(s, initial) ==> Counted(after, initial)
  {}

  // ---------------------------------------------------------------------------------------------
  // What holds in every run
  // ---------------------------------------------------------------------------------------------

  /** The invariant holds after any interleaving of any threads, with calls that raise anywhere. */
  lemma {:induction false} RunKeepsInv(s: State, trace: seq<(Thread, Event)>, initial: map<Name, Row>)
    requires Inv(s, initial)
    ensures Inv(Run(s, trace), initial)
    decreases |trace|
  {
    hide Inv, Next;
    if trace != [] {
      NextKeepsInv(s, trace[0].0, trace[0].1, initial);
      RunKeepsInv(Next(s, trace[0].0, trace[0].1), trace[1..], initial);
    }
  }

  /**
   * At most one row is ever created per well-known source, mailbox source or seed entity, none when
   * an earlier process left one, and at most one composition is ever built with success.
   */
  lemma AtMostOneRow(rows: map<Name, Row>, nextId: Id, trace: seq<(Thread, Event)>, name: Name)
    requires Leftover(rows)
    ensures Run(Cold(rows, nextId), trace).created[name] <= (if name in rows then 0 else 1)
  {
    hide Run;
    ColdInv(rows, nextId);
    RunKeepsInv(Cold(rows, nextId), trace, rows);
  }

  /**
   * All callers that return get the same value for the same slot, and that value names the existing
   * rows: for the seed entities, all three of them, each with its accounting configuration.
   */
  lemma CallersAgree(rows: map<Name, Row>, nextId: Id, trace: seq<(Thread, Event)>, i: nat, j: nat)
    requires Leftover(rows)
    requires i < |Run(Cold(rows, nextId), trace).returned| && j < |Run(Cold(rows, nextId), trace).returned|
    ensures var s := Run(Cold(rows, nextId), trace);
      && (s.returned[i].0 == s.returned[j].0 ==> s.returned[i] == s.returned[j])
      && Whole(s.rows, s.returned[i].0, s.returned[i].1)
  {
    hide Run, Whole, RowsOk;
    ColdInv(rows, nextId);
    RunKeepsInv(Cold(rows, nextId), trace, rows);
  }

  /** A step that raises publishes and returns nothing and leaves the memo unset; the next step frees the lock. */
  lemma RaisingLeavesNoTrace(s: State, t: Thread, o: Outcome, initial: map<Name, Row>)
    requires Inv(s, initial) && t in s.calls
    requires Step(s, t, o).calls[t].pc.LeaveRaising? || (s.calls[t].pc.LeaveRaising? && Step(s, t, o).calls[t].pc.Raised?)
    ensures var after := Step(s, t, o); var slot := s.calls[t].slot;
      && after.memo == s.memo && slot !in after.memo && after.returned == s.returned
      && (after.calls[t].pc.LeaveRaising? ==> after.held == s.held)
      && (after.calls[t].pc.Raised? ==> LockOf(slot) !in after.held)
  {
    hide Names, NextName, LocksOk, MemoOk, RowsOk, PcOk, Apply;
    assert CallOk(s, t);
    var effect := Move(s, s.calls[t].slot, s.calls[t].pc, o).0;
    ApplyFields(s, t, s.calls[t].slot, effect);
    ApplyHeld(s, t, s.calls[t].slot, effect);
  }

  /** Once set, a memo entry never changes, so no later call is told anything else. */
  lemma {:induction false} MemoIsForEver(s: State, trace: seq<(Thread, Event)>, initial: map<Name, Row>, slot: Slot)
    requires Inv(s, initial) && slot in s.memo
    ensures slot in Run(s, trace).memo && Run(s, trace).memo[slot] == s.memo[slot]
    ensures slot.TheComposition? ==> Run(s, trace).created[Built] == s.created[Built]
    decreases |trace|
  {
    hide Inv, Next;
    if trace != [] {
      var (t, e) := trace[0];
      NextKeepsInv(s, t, e, initial);
      NextKeepsMemo(s, t, e, initial, slot);
      MemoIsForEver(Next(s, t, e), trace[1..], initial, slot);
    }
  }

  lemma NextKeepsMemo(s: State, t: Thread, e: Event, initial: map<Name, Row>, slot: Slot)
    requires Inv(s, initial) && slot in s.memo
    ensures slot in Next(s, t, e).memo && Next(s, t, e).memo[slot] == s.memo[slot]
    ensures slot.TheComposition? ==> Next(s, t, e).created[Built] == s.created[Built]
  {
    hide Move, Apply, PcOk, LocksOk;
    if e.Advance? && t in s.calls {
      var c := s.calls[t];
      var effect := Move(s, c.slot, c.pc, e.outcome).0;
      MoveIsAllowed(s, t, e.outcome);
      ApplyGrows(s, t, c.slot, c.pc, effect);
      StepKeepsRows(s, t, e.outcome, initial);
      if slot.TheComposition? { BuiltStays(s, slot); }
    }
  }

  lemma BuiltStays(s: State, slot: Slot)
    requires MemoOk(s) && slot in s.memo && slot.TheComposition?
    ensures Built in s.rows
  {
    assert Whole(s.rows, slot, s.memo[slot]);
    assert Names(slot)[0] in s.rows;
  }

  // ---------------------------------------------------------------------------------------------
  // No thread keeps a lock
  // ---------------------------------------------------------------------------------------------

  /** An upper bound on the steps that a call still takes inside its critical section. */
  function Budget(slot: Slot, pc: Pc): int {
    var n := |Names(slot)|;
    match pc
    case Recheck => 2 * n + 3
    case Build => 3
    case Find(got) => 2 * (n - |got|) + 2
    case Backfill(got) => 2 * (n - |got|) + 1
    case Create(got) => 2 * (n - |got|) + 1
    case Publish(_) => 2
    case Leave(_) => 1
    case LeaveRaising => 1
    case _ => 0
  }

  lemma StepSpendsBudget(s: State, t: Thread, o: Outcome)
    requires t in s.calls && CallOk(s, t) && Inside(s.calls[t].pc)
    ensures var c, d := s.calls[t], Step(s, t, o).calls[t];
      0 <= Budget(d.slot, d.pc) < Budget(c.slot, c.pc) && (!Inside(d.pc) ==> LockOf(c.slot) !in Step(s, t, o).held)
  {
    hide Names, NextName;
    NothingHeld(s.rows, s.calls[t].slot);
  }

  function StepsOf(trace: seq<(Thread, Event)>, t: Thread): nat {
    if trace == [] then 0
    else (if trace[0].0 == t && trace[0].1.Advance? then 1 else 0) + StepsOf(trace[1..], t)
  }

  /**
   * A thread that holds a lock never waits: however the threads interleave and whatever raises, the
   * lock is free again by the time the holder has taken `Budget` steps.
   */
  lemma {:induction false} LockIsReleased(s: State, trace: seq<(Thread, Event)>, t: Thread, initial: map<Name, Row>)
    returns (k: nat)
    requires Inv(s, initial) && t in s.calls && Inside(s.calls[t].pc)
    requires StepsOf(trace, t) >= Budget(s.calls[t].slot, s.calls[t].pc)
    ensures k <= |trace| && LockOf(s.calls[t].slot) !in Run(s, trace[..k]).held
    decreases |trace|
  {
    hide Inv, Next, Budget, Inside;
    BudgetIsPositive(s.calls[t].slot, s.calls[t].pc, s, t, initial);
    var (u, e) := trace[0];
    var after := Next(s, u, e);
    NextKeepsInv(s, u, e, initial);
    HolderAdvances(s, t, u, e, initial);
    if Inside(after.calls[t].pc) {
      var j := LockIsReleased(after, trace[1..], t, initial);
      k := j + 1;
      assert trace[..k][1..] == trace[1..][..j];
    } else {
      k := 1;
      assert trace[..1][1..] == [];
    }
  }

  lemma BudgetIsPositive(slot: Slot, pc: Pc, s: State, t: Thread, initial: map<Name, Row>)
    requires Inv(s, initial) && t in s.calls && s.calls[t] == Call(slot, pc) && Inside(pc)
    ensures Budget(slot, pc) > 0
  {
    hide LocksOk, MemoOk, RowsOk, Names;
    assert CallOk(s, t);
  }

  lemma HolderAdvances(s: State, t: Thread, u: Thread, e: Event, initial: map<Name, Row>)
    requires Inv(s, initial) && t in s.calls && Inside(s.calls[t].pc)
    ensures var after := Next(s, u, e);
      && t in after.calls && after.calls[t].slot == s.calls[t].slot
      && (Inside(after.calls[t].pc) || LockOf(s.calls[t].slot) !in after.held)
      && (if u == t && e.Advance? then Budget(after.calls[t].slot, after.calls[t].pc) < Budget(s.calls[t].slot, s.calls[t].pc)
          else after.calls[t] == s.calls[t])
  {
    hide LocksOk, MemoOk, RowsOk, Names, Move, Apply, PcOk, Budget;
    assert CallOk(s, t);
    if u == t && e.Advance? { StepSpendsBudget(s, t, e.outcome); }
  }

  // ---------------------------------------------------------------------------------------------
  // Progress
  // ---------------------------------------------------------------------------------------------

  /** What a resolved value names, slot by slot: configured rows with exactly these identifiers. */
  lemma WholeMeans(rows: map<Name, Row>, slot: Slot, value: seq<Id>)
    ensures slot.TheComposition? ==>
      (Whole(rows, slot, value) <==> |value| == 1 && Built in rows && rows[Built] == Row(value[0], true))
    ensures slot.ManualSource? ==>
      (Whole(rows, slot, value) <==> |value| == 1 && ManualRow in rows && rows[ManualRow] == Row(value[0], true))
    ensures slot.Mailbox? ==>
      (Whole(rows, slot, value) <==>
        |value| == 1 && MailboxRow(slot.mailboxId) in rows && rows[MailboxRow(slot.mailboxId)] == Row(value[0], true))
    ensures slot.SeedEntities? ==>
      (Whole(rows, slot, value) <==>
        && |value| == 3
        && EntityRow("INFOSECURS_LIMITED") in rows && rows[EntityRow("INFOSECURS_LIMITED")] == Row(value[0], true)
        && EntityRow("NOUSTAI_LIMITED") in rows && rows[EntityRow("NOUSTAI_LIMITED")] == Row(value[1], true)
        && EntityRow("MATTHEW_SCOTT_PERSONAL") in rows && rows[EntityRow("MATTHEW_SCOTT_PERSONAL")] == Row(value[2], true))
  {
    assert Names(slot)[0] == (match slot
      case TheComposition => Built
      case ManualSource => ManualRow
      case SeedEntities => EntityRow("INFOSECURS_LIMITED")
      case Mailbox(id) => MailboxRow(id));
    if slot.SeedEntities? { WholeOfThree(rows, slot, value); } else { WholeOfOne(rows, slot, value); }
  }

  lemma WholeOfOne(rows: map<Name, Row>, slot: Slot, value: seq<Id>)
    requires |Names(slot)| == 1
    ensures Whole(rows, slot, value) <==>
      |value| == 1 && Names(slot)[0] in rows && rows[Names(slot)[0]] == Row(value[0], true)
  {
    hide Names;
  }

  lemma WholeOfThree(rows: map<Name, Row>, slot: Slot, value: seq<Id>)
    requires |Names(slot)| == 3
    ensures Whole(rows, slot, value) <==>
      && |value| == 3
      && Names(slot)[0] in rows && rows[Names(slot)[0]] == Row(value[0], true)
      && Names(slot)[1] in rows && rows[Names(slot)[1]] == Row(value[1], true)
      && Names(slot)[2] in rows && rows[Names(slot)[2]] == Row(value[2], true)
  {
    hide Names;
  }

  /** Every repository call and build that this thread makes during the trace succeeds. */
  predicate OwnSucceed(trace: seq<(Thread, Event)>, t: Thread) {
    forall i :: 0 <= i < |trace| && trace[i].0 == t && trace[i].1.Advance? ==> trace[i].1.outcome.Succeeds?
  }

  predicate Raising(pc: Pc) { pc.LeaveRaising? || pc.Raised? }

  /** A step starts to raise exactly when it builds, looks up, completes or creates and that does not succeed. */
  lemma RaisesIff(s: State, t: Thread, o: Outcome)
    requires t in s.calls && CallOk(s, t) && !Raising(s.calls[t].pc)
    ensures var pc, after := s.calls[t].pc, Step(s, t, o);
      && (Raising(after.calls[t].pc) <==> !o.Succeeds? && (pc.Build? || pc.Find? || pc.Backfill? || pc.Create?))
      && (o.Raises? ==> after.rows == s.rows && after.created == s.created)
  {
    hide Names, Holds, Apply;
    ApplyFields(s, t, s.calls[t].slot, Move(s, s.calls[t].slot, s.calls[t].pc, o).0);
  }

  /** A creation that raises after its effect has added the row all the same, one that raises before it has not. */
  lemma CreationAddsRow(s: State, t: Thread, o: Outcome)
    requires t in s.calls && CallOk(s, t) && s.calls[t].pc.Create?
    ensures var name, after := Names(s.calls[t].slot)[|s.calls[t].pc.got|], Step(s, t, o);
      && after.created == (if o.Raises? then s.created else s.created + multiset{name})
      && (name in after.rows <==> !o.Raises?)
  {
    hide Names;
  }

  /** The others do not make a call raise: while its own outcomes succeed, a thread's calls never raise. */
  lemma {:induction false} OnlyOwnFailuresRaise(s: State, trace: seq<(Thread, Event)>, t: Thread, initial: map<Name, Row>)
    requires Inv(s, initial) && OwnSucceed(trace, t)
    requires t in s.calls ==> !s.calls[t].pc.LeaveRaising? && !s.calls[t].pc.Raised?
    ensures var after := Run(s, trace); t in after.calls ==> !after.calls[t].pc.LeaveRaising? && !after.calls[t].pc.Raised?
    decreases |trace|
  {
    hide Inv, Next;
    if trace != [] {
      var (u, e) := trace[0];
      NextKeepsInv(s, u, e, initial);
      NextRaisesOwn(s, u, e, t, initial);
      assert OwnSucceed(trace[1..], t) by { OwnSucceedRest(trace, t); }
      OnlyOwnFailuresRaise(Next(s, u, e), trace[1..], t, initial);
    }
  }

  lemma OwnSucceedRest(trace: seq<(Thread, Event)>, t: Thread)
    requires OwnSucceed(trace, t) && trace != []
    ensures OwnSucceed(trace[1..], t)
    ensures trace[0].0 == t && trace[0].1.Advance? ==> trace[0].1.outcome.Succeeds?
  {
    forall i | 0 <= i < |trace| - 1 && trace[1..][i].0 == t && trace[1..][i].1.Advance?
      ensures trace[1..][i].1.outcome.Succeeds?
    {
      assert trace[1..][i] == trace[i + 1];
    }
  }

  lemma NextRaisesOwn(s: State, u: Thread, e: Event, t: Thread, initial: map<Name, Row>)
    requires Inv(s, initial) && (u == t && e.Advance? ==> e.outcome.Succeeds?)
    requires t in s.calls ==> !Raising(s.calls[t].pc)
    ensures var after := Next(s, u, e); t in after.calls ==> !Raising(after.calls[t].pc)
  {
    hide LocksOk, MemoOk, RowsOk, Names, Move, Apply, PcOk;
    if u == t && e.Advance? && t in s.calls { RaisesIff(s, t, e.outcome); }
  }

  /** When a call has returned, each of its names has one row, which this process created unless an earlier one did. */
  lemma DoneIsWhole(s: State, t: Thread, initial: map<Name, Row>)
    requires Inv(s, initial) && t in s.calls && s.calls[t].pc.Done?
    ensures Whole(s.rows, s.calls[t].slot, s.calls[t].pc.value)
    ensures forall n :: n in Names(s.calls[t].slot) ==> s.created[n] == if n in initial then 0 else 1
  {
    hide LocksOk, Names;
    assert CallOk(s, t);
    var slot := s.calls[t].slot;
    forall n | n in Names(slot) ensures n in s.rows {
      var i :| 0 <= i < |Names(slot)| && Names(slot)[i] == n;
    }
  }

  /** A call that leaves its critical section without raising has returned. */
  lemma LeavesDone(s: State, t: Thread, o: Outcome)
    requires t in s.calls && CallOk(s, t) && Inside(s.calls[t].pc) && o.Succeeds? && !Raising(s.calls[t].pc)
    ensures var pc := Step(s, t, o).calls[t].pc; !Inside(pc) ==> pc.Done?
  {
    hide Names, NextName;
  }

  /**
   * Progress.  A call inside its critical section whose own remaining outcomes all succeed has
   * returned after at most nine of its own steps, five unless it resolves the seed entities, in
   * whatever way the other threads interleave and raise; its value names configured rows, one of each
   * name in all, created by this process where no earlier one left it.
   */
  lemma {:induction false} CallReturns(s: State, trace: seq<(Thread, Event)>, t: Thread, initial: map<Name, Row>)
    returns (k: nat, value: seq<Id>)
    requires Inv(s, initial) && t in s.calls && Inside(s.calls[t].pc) && !s.calls[t].pc.LeaveRaising?
    requires OwnSucceed(trace, t) && StepsOf(trace, t) >= if s.calls[t].slot.SeedEntities? then 9 else 5
    ensures k <= |trace| && t in Run(s, trace[..k]).calls
    ensures var slot, after := s.calls[t].slot, Run(s, trace[..k]);
      && after.calls[t] == Call(slot, Done(value)) && Whole(after.rows, slot, value)
      && (forall n :: n in Names(slot) ==> after.created[n] == if n in initial then 0 else 1)
  {
    assert Budget(s.calls[t].slot, s.calls[t].pc) <= if s.calls[t].slot.SeedEntities? then 9 else 5 by {
      hide MemoOk, RowsOk, LocksOk;
      assert CallOk(s, t);
    }
    k, value := ReturnsWithinBudget(s, trace, t, initial);
  }

  lemma {:induction false} ReturnsWithinBudget(s: State, trace: seq<(Thread, Event)>, t: Thread, initial: map<Name, Row>)
    returns (k: nat, value: seq<Id>)
    requires Inv(s, initial) && t in s.calls && Inside(s.calls[t].pc) && !s.calls[t].pc.LeaveRaising?
    requires OwnSucceed(trace, t) && StepsOf(trace, t) >= Budget(s.calls[t].slot, s.calls[t].pc)
    ensures k <= |trace| && t in Run(s, trace[..k]).calls
    ensures var slot, after := s.calls[t].slot, Run(s, trace[..k]);
      && after.calls[t] == Call(slot, Done(value)) && Whole(after.rows, slot, value)
      && (forall n :: n in Names(slot) ==> after.created[n] == if n in initial then 0 else 1)
    decreases |trace|
  {
    hide Inv, Next, Budget, Inside, Whole, Names, Raising;
    BudgetIsPositive(s.calls[t].slot, s.calls[t].pc, s, t, initial);
    var (u, e) := trace[0];
    var after := Next(s, u, e);
    NextKeepsInv(s, u, e, initial);
    HolderAdvances(s, t, u, e, initial);
    OwnSucceedRest(trace, t);
    HolderReturns(s, t, u, e, initial);
    if Inside(after.calls[t].pc) {
      var j;
      j, value := ReturnsWithinBudget(after, trace[1..], t, initial);
      k := j + 1;
      assert trace[..k][1..] == trace[1..][..j];
    } else {
      k, value := 1, after.calls[t].pc.value;
      assert trace[..1][1..] == [];
      assert Run(s, trace[..1]) == after;
      DoneIsWhole(after, t, initial);
    }
  }

  lemma HolderReturns(s: State, t: Thread, u: Thread, e: Event, initial: map<Name, Row>)
    requires Inv(s, initial) && t in s.calls && Inside(s.calls[t].pc) && !s.calls[t].pc.LeaveRaising?
    requires u == t && e.Advance? ==> e.outcome.Succeeds?
    ensures var after := Next(s, u, e);
      && t in after.calls && !after.calls[t].pc.LeaveRaising?
      && (!Inside(after.calls[t].pc) ==> after.calls[t].pc.Done?)
  {
    hide LocksOk, MemoOk, RowsOk, Names, Move, Apply, PcOk;
    assert CallOk(s, t);
    if u == t && e.Advance? {
      RaisesIff(s, t, e.outcome);
      LeavesDone(s, t, e.outcome);
    }
  }

  /** A waiting call gets in at once when its own lock, and no other, is free. */
  lemma FreeLockLetsIn(s: State, t: Thread, o: Outcome)
    requires t in s.calls && s.calls[t].pc.WantLock?
    requires (if s.calls[t].slot.Mailbox? then MailboxLock else Main) !in s.held
    ensures Step(s, t, o).calls[t] == Call(s.calls[t].slot, Recheck)
  {}

  /** Once a slot is resolved, a call for it returns the memoised value in one step, even while its lock is held. */
  lemma ResolvedSlotNeedsNoLock(s: State, t: Thread, o: Outcome)
    requires t in s.calls && s.calls[t].pc.Start? && s.calls[t].slot in s.memo
    ensures var after, value := Step(s, t, o), s.memo[s.calls[t].slot];
      && after.calls[t].pc == Done(value) && after.returned == s.returned + [(s.calls[t].slot, value)]
      && after.held == s.held && after.memo == s.memo && after.rows == s.rows && after.created == s.created
  {}

  /**
   * The first call in a cold process: if the caller's own outcomes succeed, it returns, however the
   * other threads interleave and raise after it has taken the lock.
   */
  lemma FirstCallReturns(rows: map<Name, Row>, nextId: Id, t: Thread, slot: Slot, rest: seq<(Thread, Event)>)
    returns (k: nat, value: seq<Id>)
    requires Leftover(rows) && OwnSucceed(rest, t) && StepsOf(rest, t) >= if slot.SeedEntities? then 9 else 5
    ensures k <= |rest|
    ensures var ask := [(t, Enter(slot)), (t, Advance(Succeeds)), (t, Advance(Succeeds))];
      var after := Run(Cold(rows, nextId), ask + rest[..k]);
      && t in after.calls && after.calls[t] == Call(slot, Done(value)) && Whole(after.rows, slot, value)
      && (forall n :: n in Names(slot) ==> after.created[n] == if n in rows then 0 else 1)
  {
    hide Whole, Names, StepsOf, OwnSucceed;
    var cold := Cold(rows, nextId);
    var s := Run(cold, [(t, Enter(slot)), (t, Advance(Succeeds)), (t, Advance(Succeeds))]);
    ColdInv(rows, nextId);
    RunKeepsInv(cold, [(t, Enter(slot)), (t, Advance(Succeeds)), (t, Advance(Succeeds))], rows);
    AskTakesLock(cold, t, slot);
    k, value := CallReturns(s, rest, t, rows);
    RunInTwoParts(cold, [(t, Enter(slot)), (t, Advance(Succeeds)), (t, Advance(Succeeds))], rest[..k]);
  }

  lemma AskTakesLock(s: State, t: Thread, slot: Slot)
    requires Idle(s, t) && slot !in s.memo && LockOf(slot) !in s.held
    ensures var after := Run(s, [(t, Enter(slot)), (t, Advance(Succeeds)), (t, Advance(Succeeds))]);
      t in after.calls && after.calls[t] == Call(slot, Recheck)
  {
    var enter, advance := (t, Enter(slot)), (t, Advance(Succeeds));
    var entered := Next(s, t, Enter(slot));
    var waiting := Next(entered, t, Advance(Succeeds));
    assert [enter, advance, advance][1..] == [advance, advance] && [advance, advance][1..] == [advance];
    assert Run(s, [enter, advance, advance]) == Run(waiting, [advance]) == Next(waiting, t, Advance(Succeeds));
  }

  lemma {:induction false} RunInTwoParts(s: State, a: seq<(Thread, Event)>, b: seq<(Thread, Event)>)
    ensures Run(s, a + b) == Run(Run(s, a), b)
    decreases |a|
  {
    hide Next;
    if a == [] {
      assert a + b == b;
    } else {
      assert (a + b)[1..] == a[1..] + b;
      RunInTwoParts(Next(s, a[0].0, a[0].1), a[1..], b);
    }
  }

  /** Every two rows have different identifiers, all of them below the next one. */
  ghost predicate FreshIds(s: State) {
    && (forall n :: n in s.rows ==> s.rows[n].id < s.nextId)
    && (forall n, m :: n in s.rows && m in s.rows && n != m ==> s.rows[n].id != s.rows[m].id)
  }

  /** In every run all rows keep distinct identifiers, so the three seed entities never share one. */
  lemma {:induction false} RowsStayDistinct(s: State, trace: seq<(Thread, Event)>, initial: map<Name, Row>)
    requires Inv(s, initial) && FreshIds(s)
    ensures FreshIds(Run(s, trace))
    decreases |trace|
  {
    hide Inv, Next;
    if trace != [] {
      NextKeepsInv(s, trace[0].0, trace[0].1, initial);
      NextKeepsFresh(s, trace[0].0, trace[0].1, initial);
      RowsStayDistinct(Next(s, trace[0].0, trace[0].1), trace[1..], initial);
    }
  }

  lemma NextKeepsFresh(s: State, t: Thread, e: Event, initial: map<Name, Row>)
    requires Inv(s, initial) && FreshIds(s)
    ensures FreshIds(Next(s, t, e))
  {
    hide LocksOk, MemoOk, RowsOk, PcOk, Allows, Move, Apply;
    if e.Advance? && t in s.calls {
      MoveIsAllowed(s, t, e.outcome);
      ApplyKeepsFresh(s, t, s.calls[t].slot, s.calls[t].pc, Move(s, s.calls[t].slot, s.calls[t].pc, e.outcome).0);
    }
  }

  lemma ApplyKeepsFresh(s: State, t: Thread, slot: Slot, pc: Pc, e: Effect)
    requires FreshIds(s) && Allows(s, slot, pc, e)
    ensures FreshIds(Apply(s, t, slot, e))
  {
    hide Names, Whole;
  }
}
