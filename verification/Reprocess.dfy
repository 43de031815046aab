/** Gated, replayable reprocessing of evidence (scripts/reprocess_evidence_classification.py). */
module Reprocess {
  import opened Checkpoint
  import opened Common
  import S = Sorting

  // ---------------------------------------------------------------------------------------------
  // Evidence, rules and classifications
  // ---------------------------------------------------------------------------------------------

  datatype Evidence = Evidence(id: Id, receivedAt: Time, contentHash: string, sender: string, subject: string)

  datatype Rule = Rule(id: Id, documentType: string, active: bool)

  datatype Source = DeterministicRule | OtherSource

  datatype Classification = Classification(source: Source, ruleId: Option<Id>, documentType: string)

  /** The current classification of every classified item. */
  type Current = map<Id, Classification>

  predicate OwnedBy(c: Classification, rule: Rule) {
    c.source == DeterministicRule && c.ruleId == Some(rule.id)
  }

  predicate Unclaimed(id: Id, current: Current) { id !in current }

  predicate Owned(id: Id, current: Current, rule: Rule) {
    id in current && OwnedBy(current[id], rule)
  }

  // ---------------------------------------------------------------------------------------------
  // Scanning
  // ---------------------------------------------------------------------------------------------

  /** `EvidenceRepository.list_evidence(limit=…, offset=…)` over a listing in some fixed order. */
  function EvidencePage(listing: seq<Evidence>, limit: nat, offset: nat): seq<Evidence> {
    if offset >= |listing| then [] else Take(listing[offset..], limit)
  }

  /** What paging reaches: everything, whatever the page size, except that a zero page size reaches nothing. */
  function Reached(listing: seq<Evidence>, pageSize: nat): seq<Evidence> {
    if pageSize == 0 then [] else listing
  }

  method ListAllEvidence(listing: seq<Evidence>, pageSize: nat) returns (items: seq<Evidence>)
    ensures items == if pageSize == 0 then [] else listing
  {
    items := [];
    var offset := 0;
    while true
      invariant 0 <= offset && (offset <= |listing| ==> items == listing[..offset])
      invariant offset <= |listing|
      invariant pageSize == 0 ==> offset == 0
      decreases |listing| - offset
    {
      var page := EvidencePage(listing, pageSize, offset);
      if page == [] { break; }
      items := items + page;
      assert items == listing[..offset + |page|];
      offset := offset + pageSize;
      if |page| < pageSize { break; }
    }
  }

  predicate Selects(e: Evidence, current: Current, rule: Rule, matches: Evidence -> bool, includeOwn: bool) {
    matches(e) && (Unclaimed(e.id, current) || (includeOwn && Owned(e.id, current, rule)))
  }

  function Selected(all: seq<Evidence>, current: Current, rule: Rule, matches: Evidence -> bool, includeOwn: bool): seq<Evidence> {
    if all == [] then []
    else (if Selects(all[0], current, rule, matches, includeOwn) then [all[0]] else [])
         + Selected(all[1..], current, rule, matches, includeOwn)
  }

  function MatchingCount(all: seq<Evidence>, matches: Evidence -> bool): nat {
    if all == [] then 0 else (if matches(all[0]) then 1 else 0) + MatchingCount(all[1..], matches)
  }

  function ClassifiedCount(all: seq<Evidence>, current: Current, matches: Evidence -> bool): nat {
    if all == [] then 0
    else (if matches(all[0]) && !Unclaimed(all[0].id, current) then 1 else 0) + ClassifiedCount(all[1..], current, matches)
  }

  /** One line of the manifest, as `to_manifest_entry` builds it. */
  datatype Entry = Entry(
    evidenceId: Id,
    receivedAt: Time,
    contentHash: string,
    sender: string,
    subject: string,
    ruleId: Id,
    documentType: string)

  const ByArrival: Evidence -> S.Key := (e: Evidence) => S.Key(e.receivedAt, e.id)

  function Candidates(all: seq<Evidence>, current: Current, rule: Rule, matches: Evidence -> bool, includeOwn: bool): seq<Evidence> {
    S.Sort(Selected(all, current, rule, matches, includeOwn), ByArrival)
  }

  function EntryFor(e: Evidence, rule: Rule): Entry {
    Entry(e.id, e.receivedAt, e.contentHash, e.sender, e.subject, rule.id, rule.documentType)
  }

  function Manifest(candidates: seq<Evidence>, rule: Rule): (m: seq<Entry>)
    ensures |m| == |candidates|
  {
    if candidates == [] then [] else [EntryFor(candidates[0], rule)] + Manifest(candidates[1..], rule)
  }

  function Scan(all: seq<Evidence>, current: Current, rule: Rule, matches: Evidence -> bool, includeOwn: bool): seq<Entry> {
    Manifest(Candidates(all, current, rule, matches, includeOwn), rule)
  }

  ghost predicate DistinctIds(all: seq<Evidence>) {
    forall i, j :: 0 <= i < j < |all| ==> all[i].id != all[j].id
  }

  lemma {:induction false} SelectedExactly(all: seq<Evidence>, current: Current, rule: Rule, matches: Evidence -> bool,
                                           includeOwn: bool, e: Evidence)
    ensures e in Selected(all, current, rule, matches, includeOwn) <==>
            e in all && Selects(e, current, rule, matches, includeOwn)
  {
    if all != [] {
      SelectedExactly(all[1..], current, rule, matches, includeOwn, e);
      assert e in all <==> e == all[0] || e in all[1..];
    }
  }

  lemma ScanStep(all: seq<Evidence>, i: nat, current: Current, rule: Rule, matches: Evidence -> bool, includeOwn: bool)
    requires i < |all|
    ensures var e := all[i];
      && Selected(all[i..], current, rule, matches, includeOwn) ==
         (if Selects(e, current, rule, matches, includeOwn) then [e] else []) + Selected(all[i + 1..], current, rule, matches, includeOwn)
      && MatchingCount(all[i..], matches) == (if matches(e) then 1 else 0) + MatchingCount(all[i + 1..], matches)
      && ClassifiedCount(all[i..], current, matches) ==
         (if matches(e) && !Unclaimed(e.id, current) then 1 else 0) + ClassifiedCount(all[i + 1..], current, matches)
  {
    assert all[i..][0] == all[i] && all[i..][1..] == all[i + 1..];
  }

  lemma ScanEnd(current: Current, rule: Rule, matches: Evidence -> bool, includeOwn: bool)
    ensures Selected([], current, rule, matches, includeOwn) == []
    ensures MatchingCount([], matches) == 0 && ClassifiedCount([], current, matches) == 0
  {}

  lemma {:induction false} SelectedKeepsDistinct(all: seq<Evidence>, current: Current, rule: Rule, matches: Evidence -> bool,
                                                 includeOwn: bool)
    requires DistinctIds(all)
    ensures DistinctIds(Selected(all, current, rule, matches, includeOwn))
  {
    if all != [] {
      var rest := Selected(all[1..], current, rule, matches, includeOwn);
      SelectedKeepsDistinct(all[1..], current, rule, matches, includeOwn);
      forall j | 0 <= j < |rest| ensures rest[j].id != all[0].id {
        SelectedExactly(all[1..], current, rule, matches, includeOwn, rest[j]);
      }
    }
  }

  /** The candidates are the selected items, strictly ascending by the sort key. */
  lemma CandidatesAscend(all: seq<Evidence>, current: Current, rule: Rule, matches: Evidence -> bool, includeOwn: bool)
    requires DistinctIds(all)
    ensures var c := Candidates(all, current, rule, matches, includeOwn);
      && S.StrictlyAscending(c, ByArrival)
      && (forall e :: e in c <==> e in all && Selects(e, current, rule, matches, includeOwn))
  {
    var chosen := Selected(all, current, rule, matches, includeOwn);
    SelectedKeepsDistinct(all, current, rule, matches, includeOwn);
    S.SortStrictlyAscends(chosen, ByArrival);
    S.SortKeepsElements(chosen, ByArrival);
    forall e ensures e in chosen <==> e in all && Selects(e, current, rule, matches, includeOwn) {
      SelectedExactly(all, current, rule, matches, includeOwn, e);
    }
  }

  /**
   * The candidates are exactly the matching items that are unclassified or, if own items are
   * included, classified by this rule deterministically; earlier arrivals come first, and of two
   * items that arrived together the one with the smaller id.
   */
  lemma CandidatesAreSorted(all: seq<Evidence>, current: Current, rule: Rule, matches: Evidence -> bool, includeOwn: bool)
    requires DistinctIds(all)
    ensures var c := Candidates(all, current, rule, matches, includeOwn);
      && (forall e :: e in c <==>
            && e in all && matches(e)
            && (e.id !in current
                || (includeOwn && current[e.id].source == DeterministicRule && current[e.id].ruleId == Some(rule.id))))
      && (forall i, j :: 0 <= i < j < |c| ==>
            c[i].receivedAt < c[j].receivedAt || (c[i].receivedAt == c[j].receivedAt && c[i].id < c[j].id))
  {
    hide Candidates;
    CandidatesAscend(all, current, rule, matches, includeOwn);
    var c := Candidates(all, current, rule, matches, includeOwn);
    forall i, j | 0 <= i < j < |c|
      ensures c[i].receivedAt < c[j].receivedAt || (c[i].receivedAt == c[j].receivedAt && c[i].id < c[j].id)
    {
      assert S.Less(ByArrival(c[i]), ByArrival(c[j]));
    }
  }

  /** Each manifest line carries the fields of its candidate together with the rule's id and document type. */
  lemma {:induction false} ManifestAt(candidates: seq<Evidence>, rule: Rule, i: nat)
    requires i < |candidates|
    ensures var e := candidates[i];
      Manifest(candidates, rule)[i] ==
      Entry(e.id, e.receivedAt, e.contentHash, e.sender, e.subject, rule.id, rule.documentType)
  {
    if i > 0 { ManifestAt(candidates[1..], rule, i - 1); }
  }

  lemma {:induction false} SameSelection(all: seq<Evidence>, a: Current, b: Current, rule: Rule, matches: Evidence -> bool,
                                         ownA: bool, ownB: bool)
    requires forall e :: e in all ==> (Selects(e, a, rule, matches, ownA) <==> Selects(e, b, rule, matches, ownB))
    ensures Selected(all, a, rule, matches, ownA) == Selected(all, b, rule, matches, ownB)
  {
    hide Selects;
    if all != [] {
      assert all[0] in all;
      SameSelection(all[1..], a, b, rule, matches, ownA, ownB);
    }
  }

  /**
   * What must be true of one item for a dry run over one listing and a later apply over another to
   * agree on it; evidence may have arrived, changed or gone in between.
   */
  predicate GateHolds(e: Evidence, dry: seq<Evidence>, atDryRun: Current, now: seq<Evidence>, atApply: Current,
                      rule: Rule, matches: Evidence -> bool)
  {
    matches(e) ==>
      (e in dry && Unclaimed(e.id, atDryRun) <==> e in now && (Unclaimed(e.id, atApply) || Owned(e.id, atApply, rule)))
  }

  /**
   * The manifest that `--dry-run` reports and the one that `--apply` recomputes are equal exactly
   * when every matching item was listed and unclassified at the dry run if and only if, at the
   * apply, it is listed and unclassified or classified by this very rule.
   */
  lemma ManifestsAgreeIff(dry: seq<Evidence>, atDryRun: Current, now: seq<Evidence>, atApply: Current, rule: Rule,
                          matches: Evidence -> bool)
    requires DistinctIds(dry) && DistinctIds(now)
    ensures Scan(dry, atDryRun, rule, matches, false) == Scan(now, atApply, rule, matches, true) <==>
            forall e: Evidence :: GateHolds(e, dry, atDryRun, now, atApply, rule, matches)
  {
    hide Candidates, Manifest, S.StrictlyAscending;
    var a, b := Candidates(dry, atDryRun, rule, matches, false), Candidates(now, atApply, rule, matches, true);
    CandidatesAscend(dry, atDryRun, rule, matches, false);
    CandidatesAscend(now, atApply, rule, matches, true);
    if forall e: Evidence :: GateHolds(e, dry, atDryRun, now, atApply, rule, matches) {
      forall e ensures e in a <==> e in b { assert GateHolds(e, dry, atDryRun, now, atApply, rule, matches); }
      S.SameElementsSameOrder(a, b, ByArrival);
    }
    if Manifest(a, rule) == Manifest(b, rule) {
      forall e: Evidence ensures GateHolds(e, dry, atDryRun, now, atApply, rule, matches) {
        ListedInBoth(a, b, rule, e);
        ListedInBoth(b, a, rule, e);
      }
    }
  }

  lemma ListedInBoth(a: seq<Evidence>, b: seq<Evidence>, rule: Rule, e: Evidence)
    requires Manifest(a, rule) == Manifest(b, rule)
    ensures e in a ==> e in b
  {
    hide Manifest;
    if e in a {
      var i :| 0 <= i < |a| && a[i] == e;
      ManifestAt(a, rule, i);
      ManifestAt(b, rule, i);
    }
  }

  /**
   * A dry run and an apply of the same moment agree exactly when no matching item was already
   * classified by the rule: the dry run leaves such items out, the apply includes them.
   */
  lemma SameMomentAgreesIff(all: seq<Evidence>, current: Current, rule: Rule, matches: Evidence -> bool)
    requires DistinctIds(all)
    ensures Scan(all, current, rule, matches, false) == Scan(all, current, rule, matches, true) <==>
            forall e :: e in all && matches(e) ==> !Owned(e.id, current, rule)
  {
    hide Scan;
    ManifestsAgreeIff(all, current, all, current, rule, matches);
    if forall e :: e in all && matches(e) ==> !Owned(e.id, current, rule) {
      assert forall e: Evidence :: GateHolds(e, all, current, all, current, rule, matches);
    } else {
      var e :| e in all && matches(e) && Owned(e.id, current, rule);
      assert !GateHolds(e, all, current, all, current, rule, matches);
    }
  }

  /** `after` is `before` plus classifications that this rule made. */
  ghost predicate OwnProgress(before: Current, after: Current, rule: Rule) {
    && (forall id: Id :: id in before ==> id in after && after[id] == before[id])
    && (forall id: Id :: id in after && id !in before ==> OwnedBy(after[id], rule))
  }

  /** Whatever progress the rule has made, the apply-time manifest is the same. */
  lemma ProgressKeepsManifest(all: seq<Evidence>, before: Current, after: Current, rule: Rule, matches: Evidence -> bool)
    requires OwnProgress(before, after, rule)
    ensures Scan(all, after, rule, matches, true) == Scan(all, before, rule, matches, true)
  {
    SameSelection(all, before, after, rule, matches, true, true);
  }

  // ---------------------------------------------------------------------------------------------
  // The governed classifier
  // ---------------------------------------------------------------------------------------------

  /** What the matcher says of an item over all active rules. */
  datatype Verdict = NoInput | NoMatch | Conflict | Match(ruleId: Id, documentType: string)

  datatype Outcome = NO_APPLICABLE_RULE_INPUT | NO_MATCH | CONFLICT | CLASSIFIED | EXISTING | CURRENT_CLASSIFICATION_EXISTS

  datatype Result = Result(outcome: Outcome, matchedRuleId: Option<Id>)

  function Classify(id: Id, current: Current, verdict: Verdict): (Current, Result) {
    match verdict
    case NoInput => (current, Result(NO_APPLICABLE_RULE_INPUT, None))
    case NoMatch => (current, Result(NO_MATCH, None))
    case Conflict => (current, Result(CONFLICT, None))
    case Match(ruleId, documentType) =>
      if id !in current then
        (current[id := Classification(DeterministicRule, Some(ruleId), documentType)], Result(CLASSIFIED, Some(ruleId)))
      else if current[id].source == DeterministicRule && current[id].ruleId == Some(ruleId) then
        (current, Result(EXISTING, Some(ruleId)))
      else (current, Result(CURRENT_CLASSIFICATION_EXISTS, None))
  }

  // ---------------------------------------------------------------------------------------------
  // Applying
  // ---------------------------------------------------------------------------------------------

  datatype Detail = Detail(outcome: Outcome, wasCheckpointed: bool)

  /** A checkpoint line holds an evidence id, its outcome and whether it was recorded before. */
  type Log = File<Id, Detail>

  /** What an apply changes: classifications, EVIDENCE_CLASSIFIED events (by item) and the checkpoint. */
  datatype State = State(current: Current, audit: seq<Id>, checkpoint: Log)

  /** Everything else an apply depends on; `others(k, …)` is what other producers do before step k. */
  datatype Env = Env(rule: Rule, verdict: Id -> Verdict, others: (nat, Current) -> Current)

  datatype Progress = Progress(state: State, classified: nat, existing: nat, stoppedAt: Option<Id>)

  predicate Accepted(r: Result, rule: Rule) {
    (r.outcome == CLASSIFIED || r.outcome == EXISTING) && r.matchedRuleId == Some(rule.id)
  }

  /** One candidate: the real classifier is always called, then audit and checkpoint are appended. */
  function ApplyOne(p: Progress, id: Id, step: nat, env: Env, done: set<Id>): Progress {
    var (current, r) := Classify(id, env.others(step, p.state.current), env.verdict(id));
    var audit := if r.outcome == CLASSIFIED then p.state.audit + [id] else p.state.audit;
    if !Accepted(r, env.rule) then p.(state := p.state.(current := current, audit := audit), stoppedAt := Some(id))
    else
      var checkpoint := Append(p.state.checkpoint, Record(id, Detail(r.outcome, id in done)));
      Progress(State(current, audit, checkpoint),
               if r.outcome == CLASSIFIED then p.classified + 1 else p.classified,
               if r.outcome == CLASSIFIED then p.existing else p.existing + 1,
               None)
  }

  function ApplyAll(p: Progress, ids: seq<Id>, step: nat, env: Env, done: set<Id>): Progress
    decreases |ids|
  {
    if p.stoppedAt.Some? || ids == [] then p
    else ApplyAll(ApplyOne(p, ids[0], step, env, done), ids[1..], step + 1, env, done)
  }

  function IdsOf(entries: seq<Entry>): seq<Id> {
    seq(|entries|, i requires 0 <= i < |entries| => entries[i].evidenceId)
  }

  predicate Revalidates(id: Id, current: Current, rule: Rule) {
    Owned(id, current, rule) && current[id].documentType == rule.documentType
  }

  function RevalidationFailures(ids: seq<Id>, current: Current, rule: Rule): seq<Id> {
    if ids == [] then []
    else (if Revalidates(ids[0], current, rule) then [] else [ids[0]]) + RevalidationFailures(ids[1..], current, rule)
  }

  datatype Report =
    | RuleNotActive
    | ManifestHashMismatch
    | CheckpointRaises
    | UnexpectedState(stoppedAt: Id, planned: nat, processed: nat, classified: nat, existing: nat)
    | Finished(planned: nat, beyondLimit: nat, classified: nat, existing: nat, failures: seq<Id>)

  function ExitCode(r: Report): int {
    if r.Finished? && r.failures == [] then 0 else 1
  }

  /** The evidence store and matcher of a run, and the digest of a manifest. */
  datatype Corpus = Corpus(all: seq<Evidence>, matches: Evidence -> bool, digest: seq<Entry> -> string)

  function Planned(c: Corpus, current: Current, rule: Rule, limit: int): seq<Id> {
    IdsOf(Take(Scan(c.all, current, rule, c.matches, true), limit))
  }

  /** `run_apply`, for a rule that exists; a checkpoint line on which the load raises ends it before any write. */
  function RunApply(s: State, c: Corpus, expected: string, limit: int, env: Env): (State, Report) {
    if !env.rule.active then (s, RuleNotActive)
    else
      var manifest := Scan(c.all, s.current, env.rule, c.matches, true);
      if c.digest(manifest) != expected then (s, ManifestHashMismatch)
      else if !Loads(s.checkpoint) then (s, CheckpointRaises)
      else
        var ids := Planned(c, s.current, env.rule, limit);
        var p := ApplyAll(Progress(s, 0, 0, None), ids, 0, env, Recorded(s.checkpoint.lines));
        if p.stoppedAt.Some? then
          (p.state, UnexpectedState(p.stoppedAt.value, |ids|, p.classified + p.existing, p.classified, p.existing))
        else
          var now := env.others(|ids|, p.state.current);
          (p.state.(current := now),
           Finished(|ids|, |manifest| - |ids|, p.classified, p.existing, RevalidationFailures(ids, now, env.rule)))
  }

  // ---------------------------------------------------------------------------------------------
  // The gate
  // ---------------------------------------------------------------------------------------------

  /** The dry run's digest is not that of another manifest: the one assumption of the gate. */
  predicate NoCollision(c: Corpus, dry: seq<Entry>, now: seq<Entry>) {
    c.digest(dry) == c.digest(now) ==> dry == now
  }

  /**
   * The gate against stale authority.  If the manifests differ in any item (evidence arrived, another
   * producer claimed a candidate, an item was relabelled), then the run stops before any write.
   */
  lemma ChangedCandidatesStopTheRun(s: State, c: Corpus, listing: seq<Evidence>, atDryRun: Current, limit: int, env: Env)
    requires DistinctIds(c.all) && DistinctIds(listing) && env.rule.active
    requires exists e: Evidence :: !GateHolds(e, listing, atDryRun, c.all, s.current, env.rule, c.matches)
    requires NoCollision(c, Scan(listing, atDryRun, env.rule, c.matches, false), Scan(c.all, s.current, env.rule, c.matches, true))
    ensures RunApply(s, c, c.digest(Scan(listing, atDryRun, env.rule, c.matches, false)), limit, env) == (s, ManifestHashMismatch)
  {
    hide Scan;
    ManifestsAgreeIff(listing, atDryRun, c.all, s.current, env.rule, c.matches);
  }

  /** In particular a candidate that another producer claimed since the dry run stops the apply. */
  lemma ClaimedCandidateStopsTheRun(s: State, c: Corpus, listing: seq<Evidence>, atDryRun: Current, limit: int, env: Env,
                                    e: Evidence)
    requires DistinctIds(c.all) && DistinctIds(listing) && env.rule.active
    requires e in listing && c.matches(e) && Unclaimed(e.id, atDryRun)
    requires e.id in s.current && !Owned(e.id, s.current, env.rule)
    requires NoCollision(c, Scan(listing, atDryRun, env.rule, c.matches, false), Scan(c.all, s.current, env.rule, c.matches, true))
    ensures RunApply(s, c, c.digest(Scan(listing, atDryRun, env.rule, c.matches, false)), limit, env) == (s, ManifestHashMismatch)
  {
    hide Scan, RunApply;
    assert !GateHolds(e, listing, atDryRun, c.all, s.current, env.rule, c.matches);
    ChangedCandidatesStopTheRun(s, c, listing, atDryRun, limit, env);
  }

  /** And so does a matching, unclassified item that arrived since the dry run. */
  lemma NewEvidenceStopsTheRun(s: State, c: Corpus, listing: seq<Evidence>, atDryRun: Current, limit: int, env: Env,
                               e: Evidence)
    requires DistinctIds(c.all) && DistinctIds(listing) && env.rule.active
    requires e in c.all && e !in listing && c.matches(e) && Unclaimed(e.id, s.current)
    requires NoCollision(c, Scan(listing, atDryRun, env.rule, c.matches, false), Scan(c.all, s.current, env.rule, c.matches, true))
    ensures RunApply(s, c, c.digest(Scan(listing, atDryRun, env.rule, c.matches, false)), limit, env) == (s, ManifestHashMismatch)
  {
    hide Scan, RunApply;
    assert !GateHolds(e, listing, atDryRun, c.all, s.current, env.rule, c.matches);
    ChangedCandidatesStopTheRun(s, c, listing, atDryRun, limit, env);
  }

  // ---------------------------------------------------------------------------------------------
  // What one pass does
  // ---------------------------------------------------------------------------------------------

  /** No other producer writes while the run is under way. */
  ghost predicate Alone(env: Env) {
    forall k: nat, current :: env.others(k, current) == current
  }

  /** The candidate will be accepted, given its classification when the pass reaches it. */
  predicate Cleanly(id: Id, current: Current, env: Env) {
    env.verdict(id).Match? && env.verdict(id).ruleId == env.rule.id
    && (id in current ==> OwnedBy(current[id], env.rule))
  }

  function CleanPrefix(ids: seq<Id>, current: Current, env: Env): nat {
    if ids == [] || !Cleanly(ids[0], current, env) then 0 else 1 + CleanPrefix(ids[1..], current, env)
  }

  function Claim(id: Id, current: Current, env: Env): Current {
    if id in current || !env.verdict(id).Match? then current
    else current[id := Classification(DeterministicRule, Some(env.rule.id), env.verdict(id).documentType)]
  }

  lemma OneStep(p: Progress, id: Id, step: nat, env: Env, done: set<Id>)
    requires Alone(env) && p.stoppedAt.None?
    ensures var q := ApplyOne(p, id, step, env, done);
      && (q.stoppedAt.None? <==> Cleanly(id, p.state.current, env))
      && (q.stoppedAt.None? ==> q.state.current == Claim(id, p.state.current, env) && id in q.state.current)
      && (q.stoppedAt.None? ==> q.state.audit == p.state.audit + (if id in p.state.current then [] else [id]))
  {
    assert env.others(step, p.state.current) == p.state.current;
  }

  ghost predicate Unique(ids: seq<Id>) {
    forall i, j :: 0 <= i < j < |ids| ==> ids[i] != ids[j]
  }

  lemma {:induction false} CleanPrefixUnaffected(ids: seq<Id>, current: Current, id: Id, c: Classification, env: Env)
    requires id !in ids
    ensures CleanPrefix(ids, current[id := c], env) == CleanPrefix(ids, current, env)
  {
    if ids != [] {
      assert ids[0] in ids;
      if Cleanly(ids[0], current, env) { CleanPrefixUnaffected(ids[1..], current, id, c, env); }
    }
  }

  lemma {:induction false} PassReaches(p: Progress, ids: seq<Id>, step: nat, env: Env, done: set<Id>)
    requires Alone(env) && Unique(ids) && p.stoppedAt.None?
    ensures var q := ApplyAll(p, ids, step, env, done);
      (q.stoppedAt.None? <==> CleanPrefix(ids, p.state.current, env) == |ids|)
    decreases |ids|
  {
    hide ApplyOne, Cleanly;
    if ids != [] {
      OneStep(p, ids[0], step, env, done);
      var q := ApplyOne(p, ids[0], step, env, done);
      if q.stoppedAt.None? {
        assert ids[0] !in ids[1..];
        if ids[0] !in p.state.current {
          CleanPrefixUnaffected(ids[1..], p.state.current, ids[0], q.state.current[ids[0]], env);
        }
        PassReaches(q, ids[1..], step + 1, env, done);
      }
    }
  }

  /**
   * A pass that does not stop leaves every item classified by the rule, supersedes nothing and
   * touches no other item.
   */
  lemma {:induction false} PassClaims(p: Progress, ids: seq<Id>, step: nat, env: Env, done: set<Id>, x: Id)
    requires Alone(env) && p.stoppedAt.None? && ApplyAll(p, ids, step, env, done).stoppedAt.None?
    ensures var after := ApplyAll(p, ids, step, env, done).state.current;
      && (x in p.state.current ==> x in after && after[x] == p.state.current[x])
      && (x in ids ==> x in after && Cleanly(x, after, env))
      && (x in ids && x !in p.state.current ==> after[x].documentType == env.verdict(x).documentType)
      && (x in after ==> x in p.state.current || x in ids)
    decreases |ids|
  {
    hide ApplyOne;
    if ids != [] {
      OneStep(p, ids[0], step, env, done);
      assert x in ids <==> x == ids[0] || x in ids[1..];
      if ApplyOne(p, ids[0], step, env, done).stoppedAt.None? {
        PassClaims(ApplyOne(p, ids[0], step, env, done), ids[1..], step + 1, env, done, x);
      }
    }
  }

  lemma PassIsOwnProgress(p: Progress, ids: seq<Id>, step: nat, env: Env, done: set<Id>)
    requires Alone(env) && p.stoppedAt.None? && ApplyAll(p, ids, step, env, done).stoppedAt.None?
    ensures OwnProgress(p.state.current, ApplyAll(p, ids, step, env, done).state.current, env.rule)
  {
    hide ApplyAll;
    var after := ApplyAll(p, ids, step, env, done).state.current;
    forall x: Id
      ensures x in p.state.current ==> x in after && after[x] == p.state.current[x]
      ensures x in after && x !in p.state.current ==> OwnedBy(after[x], env.rule)
    {
      PassClaims(p, ids, step, env, done, x);
    }
  }

  /** One item is audited exactly when it becomes classified, whichever rule the matcher names. */
  lemma StepAuditsWrites(p: Progress, id: Id, step: nat, env: Env, done: set<Id>)
    requires Alone(env)
    ensures var q := ApplyOne(p, id, step, env, done); var written := id !in p.state.current && env.verdict(id).Match?;
      && q.state.audit == p.state.audit + (if written then [id] else [])
      && forall x: Id :: x in q.state.current <==> x in p.state.current || (x == id && written)
  {
    hide Append;
    assert env.others(step, p.state.current) == p.state.current;
  }

  /** An undisturbed pass, stopped or not, audits every item that it classifies exactly once and no other. */
  lemma {:induction false} PassAuditsWrites(p: Progress, ids: seq<Id>, step: nat, env: Env, done: set<Id>, x: Id)
    requires Alone(env)
    ensures var q := ApplyAll(p, ids, step, env, done).state;
      && (x in p.state.current ==> x in q.current)
      && multiset(q.audit)[x] == multiset(p.state.audit)[x] + (if x !in p.state.current && x in q.current then 1 else 0)
    decreases |ids|
  {
    hide ApplyOne;
    if p.stoppedAt.None? && ids != [] {
      StepAuditsWrites(p, ids[0], step, env, done);
      PassAuditsWrites(ApplyOne(p, ids[0], step, env, done), ids[1..], step + 1, env, done, x);
    }
  }

  lemma StepCounts(p: Progress, id: Id, step: nat, env: Env, done: set<Id>)
    requires Alone(env) && p.stoppedAt.None? && ApplyOne(p, id, step, env, done).stoppedAt.None?
    ensures var q := ApplyOne(p, id, step, env, done);
      && q.classified - p.classified == |q.state.audit| - |p.state.audit|
      && q.classified + q.existing == p.classified + p.existing + 1
  {
    hide Append;
    assert env.others(step, p.state.current) == p.state.current;
  }

  /** The counters of a pass that does not stop: one per audit event, and together one per item. */
  lemma {:induction false} PassCounts(p: Progress, ids: seq<Id>, step: nat, env: Env, done: set<Id>)
    requires Alone(env) && p.stoppedAt.None? && ApplyAll(p, ids, step, env, done).stoppedAt.None?
    ensures var q := ApplyAll(p, ids, step, env, done);
      && q.classified - p.classified == |q.state.audit| - |p.state.audit|
      && q.classified + q.existing == p.classified + p.existing + |ids|
    decreases |ids|
  {
    hide ApplyOne;
    if ids != [] {
      var q := ApplyOne(p, ids[0], step, env, done);
      if q.stoppedAt.None? {
        StepCounts(p, ids[0], step, env, done);
        PassCounts(q, ids[1..], step + 1, env, done);
      }
    }
  }

  function Members(ids: seq<Id>): set<Id> { set id | id in ids }

  lemma StepRecords(p: Progress, id: Id, step: nat, env: Env, done: set<Id>)
    requires p.stoppedAt.None? && ApplyOne(p, id, step, env, done).stoppedAt.None?
    ensures var was, now := p.state.checkpoint, ApplyOne(p, id, step, env, done).state.checkpoint;
      && now.ended && (Loads(was) ==> Loads(now))
      && Recorded(now.lines) == Recorded(Kept(was)) + (if Glues(was) then {} else {id})
  {
    hide Append, Recorded, Kept, Glues, Loads, Classify;
    var outcome := Classify(id, env.others(step, p.state.current), env.verdict(id)).1.outcome;
    AppendRecords(p.state.checkpoint, Record(id, Detail(outcome, id in done)));
  }

  /**
   * A pass that does not stop records every item in the checkpoint, which stays readable; only behind
   * a last line without newline is the first new line lost together with that one.
   */
  lemma {:induction false} PassRecords(p: Progress, ids: seq<Id>, step: nat, env: Env, done: set<Id>)
    requires p.stoppedAt.None? && ApplyAll(p, ids, step, env, done).stoppedAt.None? && ids != []
    ensures var was, now := p.state.checkpoint, ApplyAll(p, ids, step, env, done).state.checkpoint;
      && now.ended && (Loads(was) ==> Loads(now))
      && Recorded(now.lines) == Recorded(Kept(was)) + Members(if Glues(was) then ids[1..] else ids)
    decreases |ids|
  {
    hide ApplyOne, Recorded, Loads;
    var q := ApplyOne(p, ids[0], step, env, done);
    if q.stoppedAt.None? {
      StepRecords(p, ids[0], step, env, done);
      if ids[1..] != [] { PassRecords(q, ids[1..], step + 1, env, done); }
      assert forall id: Id :: id in ids <==> id == ids[0] || id in ids[1..];
    }
  }

  /** Items that the rule already classified are submitted again, and nothing is written for them. */
  lemma {:induction false} FinishedItemsWriteNothing(p: Progress, ids: seq<Id>, step: nat, env: Env, done: set<Id>)
    requires Alone(env) && p.stoppedAt.None?
    requires forall id :: id in ids ==> id in p.state.current && Cleanly(id, p.state.current, env)
    ensures var q := ApplyAll(p, ids, step, env, done);
      && q.stoppedAt.None? && q.state.current == p.state.current && q.state.audit == p.state.audit
      && q.classified == p.classified && q.existing == p.existing + |ids|
    decreases |ids|
  {
    hide Cleanly;
    if ids != [] {
      assert ids[0] in ids;
      OneStep(p, ids[0], step, env, done);
      AcceptedExisting(p, ids[0], step, env, done);
      FinishedItemsWriteNothing(ApplyOne(p, ids[0], step, env, done), ids[1..], step + 1, env, done);
    }
  }

  lemma AcceptedExisting(p: Progress, id: Id, step: nat, env: Env, done: set<Id>)
    requires Alone(env) && p.stoppedAt.None? && id in p.state.current && Cleanly(id, p.state.current, env)
    ensures ApplyOne(p, id, step, env, done).classified == p.classified
    ensures ApplyOne(p, id, step, env, done).existing == p.existing + 1
  {
    assert env.others(step, p.state.current) == p.state.current;
  }

  lemma {:induction false} PassInTwoParts(p: Progress, a: seq<Id>, b: seq<Id>, step: nat, env: Env, done: set<Id>)
    ensures ApplyAll(p, a + b, step, env, done) == ApplyAll(ApplyAll(p, a, step, env, done), b, step + |a|, env, done)
    decreases |a|
  {
    hide ApplyOne;
    if a == [] {
      assert a + b == b;
    } else if p.stoppedAt.None? {
      assert (a + b)[1..] == a[1..] + b;
      PassInTwoParts(ApplyOne(p, a[0], step, env, done), a[1..], b, step + 1, env, done);
    }
  }

  /** What two passes over the same items from the same classifications have in common. */
  ghost predicate Alike(p: Progress, q: Progress, p1: Progress, q1: Progress) {
    && q.state.current == q1.state.current && q.stoppedAt == q1.stoppedAt
    && q.classified - p.classified == q1.classified - p1.classified
    && q.existing - p.existing == q1.existing - p1.existing
    && |p.state.audit| <= |q.state.audit| && |p1.state.audit| <= |q1.state.audit|
    && q.state.audit[..|p.state.audit|] == p.state.audit && q1.state.audit[..|p1.state.audit|] == p1.state.audit
    && q.state.audit[|p.state.audit|..] == q1.state.audit[|p1.state.audit|..]
  }

  /** The outcome of a pass depends on the classifications alone, not on checkpoint or counters. */
  lemma {:induction false} PassDependsOnCurrent(p: Progress, p1: Progress, ids: seq<Id>, step: nat, step1: nat, env: Env,
                                                done: set<Id>, done1: set<Id>)
    requires Alone(env) && p.stoppedAt.None? && p1.stoppedAt.None? && p.state.current == p1.state.current
    ensures Alike(p, ApplyAll(p, ids, step, env, done), p1, ApplyAll(p1, ids, step1, env, done1))
    decreases |ids|
  {
    hide Classify;
    if ids != [] {
      assert env.others(step, p.state.current) == env.others(step1, p1.state.current);
      var q, q1 := ApplyOne(p, ids[0], step, env, done), ApplyOne(p1, ids[0], step1, env, done1);
      if q.stoppedAt.None? {
        PassDependsOnCurrent(q, q1, ids[1..], step + 1, step1 + 1, env, done, done1);
        var r, r1 := ApplyAll(q, ids[1..], step + 1, env, done), ApplyAll(q1, ids[1..], step1 + 1, env, done1);
        AlikeChains(p, q, r, p1, q1, r1);
      }
    }
  }

  lemma AlikeChains(p: Progress, q: Progress, r: Progress, p1: Progress, q1: Progress, r1: Progress)
    requires Alike(p, q, p1, q1) && Alike(q, r, q1, r1)
    ensures Alike(p, r, p1, r1)
  {
    var n, m, n1, m1 := |p.state.audit|, |q.state.audit|, |p1.state.audit|, |q1.state.audit|;
    assert r.state.audit == r.state.audit[..m] + r.state.audit[m..];
    assert r1.state.audit == r1.state.audit[..m1] + r1.state.audit[m1..];
    assert r.state.audit[n..] == q.state.audit[n..] + r.state.audit[m..];
    assert r1.state.audit[n1..] == q1.state.audit[n1..] + r1.state.audit[m1..];
    assert r.state.audit[..n] == q.state.audit[..n];
    assert r1.state.audit[..n1] == q1.state.audit[..n1];
  }

  // ---------------------------------------------------------------------------------------------
  // Replay
  // ---------------------------------------------------------------------------------------------

  /**
   * A dry run that found no item of the rule, followed by any progress of the rule alone: the apply
   * recomputes the very manifest of the dry run.
   */
  lemma ReplayPassesGate(c: Corpus, atDryRun: Current, now: Current, rule: Rule)
    requires DistinctIds(c.all) && OwnProgress(atDryRun, now, rule)
    requires forall e :: e in c.all && c.matches(e) ==> !Owned(e.id, atDryRun, rule)
    ensures c.digest(Scan(c.all, atDryRun, rule, c.matches, false)) == c.digest(Scan(c.all, now, rule, c.matches, true))
  {
    hide Scan;
    SameMomentAgreesIff(c.all, atDryRun, rule, c.matches);
    ProgressKeepsManifest(c.all, atDryRun, now, rule, c.matches);
  }

  /**
   * Crash and rerun.  An apply dies after any n accepted items, leaving whatever audit log and
   * checkpoint file it managed to write.  If the checkpoint loads, the rerun passes the same gate,
   * writes nothing for the finished items, appends the audit events of the others, and ends with the
   * classifications and the exit code of an apply that never crashed; if it does not load, the rerun
   * ends before any write.
   */
  lemma CrashThenRerun(s: State, c: Corpus, expected: string, limit: int, env: Env, n: nat, t: State)
    requires Alone(env) && env.rule.active && Loads(s.checkpoint)
    requires c.digest(Scan(c.all, s.current, env.rule, c.matches, true)) == expected
    requires n <= |Planned(c, s.current, env.rule, limit)|
    requires Crashed(s, c, limit, env, n).stoppedAt.None? && t.current == Crashed(s, c, limit, env, n).state.current
    ensures var (again, report) := RunApply(t, c, expected, limit, env);
      var (straight, straightReport) := RunApply(s, c, expected, limit, env); var before := Crashed(s, c, limit, env, n).state.audit;
      && (!Loads(t.checkpoint) ==> again == t && report == CheckpointRaises)
      && (Loads(t.checkpoint) ==>
            && again.current == straight.current && ExitCode(report) == ExitCode(straightReport)
            && |t.audit| <= |again.audit| && again.audit[..|t.audit|] == t.audit
            && |before| <= |straight.audit| && again.audit[|t.audit|..] == straight.audit[|before|..])
  {
    hide Scan, ApplyAll, RevalidationFailures, Cleanly, Loads;
    var ids := Planned(c, s.current, env.rule, limit);
    var a, b := ids[..n], ids[n..];
    assert ids == a + b;
    var done, done1 := Recorded(s.checkpoint.lines), Recorded(t.checkpoint.lines);
    var p, p1 := Progress(s, 0, 0, None), Progress(t, 0, 0, None);
    var crashed := ApplyAll(p, a, 0, env, done);
    PassIsOwnProgress(p, a, 0, env, done);
    ProgressKeepsManifest(c.all, s.current, t.current, env.rule, c.matches);
    forall id | id in a ensures id in t.current && Cleanly(id, t.current, env) {
      PassClaims(p, a, 0, env, done, id);
    }
    FinishedItemsWriteNothing(p1, a, 0, env, done1);
    PassInTwoParts(p, a, b, 0, env, done);
    PassInTwoParts(p1, a, b, 0, env, done1);
    PassDependsOnCurrent(crashed, ApplyAll(p1, a, 0, env, done1), b, n, n, env, done, done1);
  }

  /** The state of an apply that has got through its first n items. */
  function Crashed(s: State, c: Corpus, limit: int, env: Env, n: nat): Progress
    requires n <= |Planned(c, s.current, env.rule, limit)|
  {
    ApplyAll(Progress(s, 0, 0, None), Planned(c, s.current, env.rule, limit)[..n], 0, env, Recorded(s.checkpoint.lines))
  }

  /** A crash leaves a readable checkpoint, even when it fell into the middle of a line. */
  lemma CrashLeavesResumable(s: State, c: Corpus, limit: int, env: Env, n: nat, detail: Detail, left: Log)
    requires Loads(s.checkpoint) && n < |Planned(c, s.current, env.rule, limit)|
    requires Crashed(s, c, limit, env, n).stoppedAt.None?
    requires LeftByCrash(Crashed(s, c, limit, env, n).state.checkpoint,
                         Record(Planned(c, s.current, env.rule, limit)[n], detail), left)
    ensures Loads(left)
  {
    hide Planned, Loads;
    var ids := Planned(c, s.current, env.rule, limit);
    if n > 0 { PassRecords(Progress(s, 0, 0, None), ids[..n], 0, env, Recorded(s.checkpoint.lines)); }
    CrashLeavesReadable(Crashed(s, c, limit, env, n).state.checkpoint, Record(ids[n], detail), left);
  }

  // ---------------------------------------------------------------------------------------------
  // Crashes between the two writes of one item
  // ---------------------------------------------------------------------------------------------

  /**
   * What a crash leaves in the two repositories after n finished items: just that, or, when it falls
   * between the two writes of the next item, the item's classification without its event.
   */
  ghost predicate CrashedAt(s: State, c: Corpus, limit: int, env: Env, n: nat, between: bool, t: State) {
    var ids := Planned(c, s.current, env.rule, limit);
    && n <= |ids| && Crashed(s, c, limit, env, n).stoppedAt.None?
    && t.audit == Crashed(s, c, limit, env, n).state.audit
    && var current := Crashed(s, c, limit, env, n).state.current;
       if between then n < |ids| && ids[n] !in current && env.verdict(ids[n]).Match?
                       && t.current == Classify(ids[n], current, env.verdict(ids[n])).0
       else t.current == current
  }

  /** What a run appends: one event for each item that it classifies, also when it stops or is not let through. */
  lemma RunAuditsWrites(t: State, c: Corpus, expected: string, limit: int, env: Env, x: Id)
    requires Alone(env)
    ensures var again := RunApply(t, c, expected, limit, env).0;
      && (x in t.current ==> x in again.current)
      && multiset(again.audit)[x] == multiset(t.audit)[x] + (if x !in t.current && x in again.current then 1 else 0)
  {
    hide Scan, ApplyAll;
    var ids := Planned(c, t.current, env.rule, limit);
    var p := ApplyAll(Progress(t, 0, 0, None), ids, 0, env, Recorded(t.checkpoint.lines));
    PassAuditsWrites(Progress(t, 0, 0, None), ids, 0, env, Recorded(t.checkpoint.lines), x);
    assert env.others(|ids|, p.state.current) == p.state.current;
  }

  /**
   * Classification and audit event are two writes, not one.  After a crash and a rerun, an item that
   * the two runs together classified has its event in the log if and only if the crash did not fall
   * between its two writes: a rerun finds the item classified and never audits it.
   */
  lemma EventLostIff(s: State, c: Corpus, expected: string, limit: int, env: Env, n: nat, between: bool, t: State, x: Id)
    requires Alone(env) && CrashedAt(s, c, limit, env, n, between, t)
    requires x !in s.current && x in RunApply(t, c, expected, limit, env).0.current
    ensures multiset(RunApply(t, c, expected, limit, env).0.audit)[x] == multiset(s.audit)[x] +
            (if between && x == Planned(c, s.current, env.rule, limit)[n] then 0 else 1)
  {
    hide ApplyAll, RunApply, Planned;
    RunAuditsWrites(t, c, expected, limit, env, x);
    var ids := Planned(c, s.current, env.rule, limit);
    PassAuditsWrites(Progress(s, 0, 0, None), ids[..n], 0, env, Recorded(s.checkpoint.lines), x);
  }

  // ---------------------------------------------------------------------------------------------
  // When the checkpoint matters
  // ---------------------------------------------------------------------------------------------

  /** An undisturbed pass over these items writes neither a classification nor an event. */
  predicate WritesNothing(ids: seq<Id>, current: Current, env: Env) {
    ids == [] ||
    ((ids[0] in current || !env.verdict(ids[0]).Match?)
     && (Cleanly(ids[0], current, env) ==> WritesNothing(ids[1..], current, env)))
  }

  lemma StepWritesNothingIff(p: Progress, id: Id, step: nat, env: Env, done: set<Id>)
    requires Alone(env) && p.stoppedAt.None?
    ensures var q := ApplyOne(p, id, step, env, done); var quiet := id in p.state.current || !env.verdict(id).Match?;
      && (q.stoppedAt.None? <==> Cleanly(id, p.state.current, env))
      && (quiet ==> q.state.current == p.state.current && q.state.audit == p.state.audit)
      && (!quiet ==> |q.state.audit| > |p.state.audit|)
  {
    hide Append;
    assert env.others(step, p.state.current) == p.state.current;
  }

  lemma {:induction false} PassGrowsAudit(p: Progress, ids: seq<Id>, step: nat, env: Env, done: set<Id>)
    requires Alone(env)
    ensures |ApplyAll(p, ids, step, env, done).state.audit| >= |p.state.audit|
    decreases |ids|
  {
    hide ApplyOne;
    if p.stoppedAt.None? && ids != [] {
      StepAuditsWrites(p, ids[0], step, env, done);
      PassGrowsAudit(ApplyOne(p, ids[0], step, env, done), ids[1..], step + 1, env, done);
    }
  }

  lemma {:induction false} PassWritesNothingIff(p: Progress, ids: seq<Id>, step: nat, env: Env, done: set<Id>)
    requires Alone(env) && p.stoppedAt.None?
    ensures var q := ApplyAll(p, ids, step, env, done).state;
      && (WritesNothing(ids, p.state.current, env) ==> q.current == p.state.current && q.audit == p.state.audit)
      && (q.audit == p.state.audit ==> WritesNothing(ids, p.state.current, env))
    decreases |ids|
  {
    hide ApplyOne, Cleanly;
    if ids != [] {
      var q := ApplyOne(p, ids[0], step, env, done);
      StepWritesNothingIff(p, ids[0], step, env, done);
      if q.stoppedAt.None? {
        PassWritesNothingIff(q, ids[1..], step + 1, env, done);
        PassGrowsAudit(q, ids[1..], step + 1, env, done);
      }
    }
  }

  /** Two runs agree: same classifications, same audit log, same exit code. */
  predicate SameOutcome(x: (State, Report), y: (State, Report)) {
    x.0.current == y.0.current && x.0.audit == y.0.audit && ExitCode(x.1) == ExitCode(y.1)
  }

  /** A checkpoint that loads affects nothing; one that does not is a run that ends before any write. */
  lemma LooksStoppedIff(s: State, b: Log, c: Corpus, expected: string, limit: int, env: Env)
    requires Alone(env) && DistinctIds(c.all) && env.rule.active && Loads(s.checkpoint) && !Loads(b)
    requires c.digest(Scan(c.all, s.current, env.rule, c.matches, true)) == expected
    ensures SameOutcome(RunApply(s, c, expected, limit, env), RunApply(s.(checkpoint := b), c, expected, limit, env)) <==>
      && WritesNothing(Planned(c, s.current, env.rule, limit), s.current, env)
      && exists id :: id in Planned(c, s.current, env.rule, limit) && !ResolvesToRule(id, s.current, env)
  {
    hide Scan, ApplyAll, Planned, WritesNothing, ResolvesToRule, RevalidationFailures, Loads;
    var ids, done := Planned(c, s.current, env.rule, limit), Recorded(s.checkpoint.lines);
    PassWritesNothingIff(Progress(s, 0, 0, None), ids, 0, env, done);
    var q := ApplyAll(Progress(s, 0, 0, None), ids, 0, env, done);
    assert env.others(|ids|, q.state.current) == q.state.current;
    PlannedResolveIff(s, c, expected, limit, env);
  }

  /**
   * Exactly when two checkpoint files give the same outcome of an undisturbed apply: it ends before
   * the load, or both files load, or neither does, or the apply would write nothing and fail anyway.
   */
  lemma CheckpointIrrelevantIff(s: State, b: Log, c: Corpus, expected: string, limit: int, env: Env)
    requires Alone(env) && DistinctIds(c.all)
    ensures var ids := Planned(c, s.current, env.rule, limit);
      SameOutcome(RunApply(s, c, expected, limit, env), RunApply(s.(checkpoint := b), c, expected, limit, env)) <==>
        || !env.rule.active || c.digest(Scan(c.all, s.current, env.rule, c.matches, true)) != expected
        || (Loads(s.checkpoint) <==> Loads(b))
        || (WritesNothing(ids, s.current, env) && exists id :: id in ids && !ResolvesToRule(id, s.current, env))
  {
    hide Scan, ApplyAll, Planned, WritesNothing, ResolvesToRule, Loads, RevalidationFailures;
    var s1, ids := s.(checkpoint := b), Planned(c, s.current, env.rule, limit);
    if env.rule.active && c.digest(Scan(c.all, s.current, env.rule, c.matches, true)) == expected {
      if Loads(s.checkpoint) && Loads(b) {
        PassDependsOnCurrent(Progress(s, 0, 0, None), Progress(s1, 0, 0, None), ids, 0, 0, env,
                             Recorded(s.checkpoint.lines), Recorded(b.lines));
        SameAudit(s, ApplyAll(Progress(s, 0, 0, None), ids, 0, env, Recorded(s.checkpoint.lines)),
                  s1, ApplyAll(Progress(s1, 0, 0, None), ids, 0, env, Recorded(b.lines)));
      } else if Loads(s.checkpoint) {
        LooksStoppedIff(s, b, c, expected, limit, env);
      } else if Loads(b) {
        LooksStoppedIff(s1, s.checkpoint, c, expected, limit, env);
        assert s1.(checkpoint := s.checkpoint) == s;
      }
    }
  }

  lemma SameAudit(s: State, q: Progress, s1: State, q1: Progress)
    requires s.audit == s1.audit && Alike(Progress(s, 0, 0, None), q, Progress(s1, 0, 0, None), q1)
    ensures q.state.audit == q1.state.audit
  {
    var n := |s.audit|;
    assert q.state.audit == q.state.audit[..n] + q.state.audit[n..];
    assert q1.state.audit == q1.state.audit[..n] + q1.state.audit[n..];
  }

  // ---------------------------------------------------------------------------------------------
  // Exit code 0
  // ---------------------------------------------------------------------------------------------

  lemma {:induction false} NoFailuresIff(ids: seq<Id>, current: Current, rule: Rule)
    ensures RevalidationFailures(ids, current, rule) == [] <==> forall id :: id in ids ==> Revalidates(id, current, rule)
  {
    if ids != [] {
      NoFailuresIff(ids[1..], current, rule);
      assert forall id :: id in ids <==> id == ids[0] || id in ids[1..];
    }
  }

  /** The candidate resolves to this rule and to the rule's own document type. */
  predicate ResolvesToRule(id: Id, current: Current, env: Env) {
    && Cleanly(id, current, env)
    && (if id in current then current[id].documentType else env.verdict(id).documentType) == env.rule.documentType
  }

  /** An undisturbed apply exits with 0 exactly when it is let through and every planned item resolves to the rule. */
  lemma PlannedResolveIff(s: State, c: Corpus, expected: string, limit: int, env: Env)
    requires Alone(env) && DistinctIds(c.all)
    ensures ExitCode(RunApply(s, c, expected, limit, env).1) == 0 <==>
      && env.rule.active && Loads(s.checkpoint) && c.digest(Scan(c.all, s.current, env.rule, c.matches, true)) == expected
      && (forall id :: id in Planned(c, s.current, env.rule, limit) ==> ResolvesToRule(id, s.current, env))
  {
    hide Scan, ApplyAll, CleanPrefix, Planned, Cleanly, ApplyOne, Loads;
    var ids := Planned(c, s.current, env.rule, limit);
    var p, done := Progress(s, 0, 0, None), Recorded(s.checkpoint.lines);
    PlannedUnique(c, s.current, env.rule, limit);
    PassReaches(p, ids, 0, env, done);
    CleanPrefixFull(ids, s.current, env);
    var q := ApplyAll(p, ids, 0, env, done);
    if q.stoppedAt.None? {
      assert env.others(|ids|, q.state.current) == q.state.current;
      NoFailuresIff(ids, q.state.current, env.rule);
      forall id | id in ids ensures ResolvesToRule(id, s.current, env) <==> Revalidates(id, q.state.current, env.rule) {
        PassClaims(p, ids, 0, env, done, id);
        CleanMeansOwned(id, q.state.current, env);
      }
    }
  }

  lemma CleanMeansOwned(id: Id, current: Current, env: Env)
    requires id in current && Cleanly(id, current, env)
    ensures Owned(id, current, env.rule)
  {}

  lemma {:induction false} CleanPrefixFull(ids: seq<Id>, current: Current, env: Env)
    ensures CleanPrefix(ids, current, env) == |ids| <==> forall id :: id in ids ==> Cleanly(id, current, env)
    ensures CleanPrefix(ids, current, env) <= |ids|
  {
    hide Cleanly;
    if ids != [] {
      CleanPrefixFull(ids[1..], current, env);
      assert forall id :: id in ids <==> id == ids[0] || id in ids[1..];
    }
  }

  lemma PlannedUnique(c: Corpus, current: Current, rule: Rule, limit: int)
    requires DistinctIds(c.all)
    ensures Unique(Planned(c, current, rule, limit))
  {
    hide S.Sort, Manifest, Selects;
    CandidatesAscend(c.all, current, rule, c.matches, true);
    var sorted := Candidates(c.all, current, rule, c.matches, true);
    var ids := Planned(c, current, rule, limit);
    forall i, j | 0 <= i < j < |ids| ensures ids[i] != ids[j] {
      ManifestAt(sorted, rule, i);
      ManifestAt(sorted, rule, j);
      assert sorted[i] in sorted && sorted[j] in sorted;
      var k :| 0 <= k < |c.all| && c.all[k] == sorted[i];
      var l :| 0 <= l < |c.all| && c.all[l] == sorted[j];
      assert S.Less(ByArrival(sorted[i]), ByArrival(sorted[j]));
    }
  }

  // ---------------------------------------------------------------------------------------------
  // The limit: of n candidates the slice `[:limit]` keeps the first m
  // ---------------------------------------------------------------------------------------------

  lemma PlannedAre(c: Corpus, current: Current, rule: Rule, limit: int, m: nat)
    requires var n := |Candidates(c.all, current, rule, c.matches, true)|;
      m == if limit >= n then n else if limit >= 0 then limit else if n + limit >= 0 then n + limit else 0
    ensures var first, ids := Candidates(c.all, current, rule, c.matches, true), Planned(c, current, rule, limit);
      && |ids| == m <= |first| && |Scan(c.all, current, rule, c.matches, true)| == |first|
      && forall i :: 0 <= i < m ==> ids[i] == first[i].id
  {
    hide Candidates;
    var first := Candidates(c.all, current, rule, c.matches, true);
    forall i | 0 <= i < m ensures Manifest(first, rule)[i].evidenceId == first[i].id { ManifestAt(first, rule, i); }
  }

  lemma IsPlanned(c: Corpus, current: Current, rule: Rule, limit: int, m: nat, id: Id)
    requires var n := |Candidates(c.all, current, rule, c.matches, true)|;
      m == if limit >= n then n else if limit >= 0 then limit else if n + limit >= 0 then n + limit else 0
    ensures m <= |Candidates(c.all, current, rule, c.matches, true)|
    ensures id in Planned(c, current, rule, limit) <==>
            exists i :: 0 <= i < m && Candidates(c.all, current, rule, c.matches, true)[i].id == id
  {
    hide Candidates, Planned;
    PlannedAre(c, current, rule, limit, m);
  }

  /** What the report says of the limit: m items planned, the other candidates beyond it. */
  lemma ReportCountsLimit(s: State, c: Corpus, expected: string, limit: int, env: Env, m: nat)
    requires var n := |Candidates(c.all, s.current, env.rule, c.matches, true)|;
      m == if limit >= n then n else if limit >= 0 then limit else if n + limit >= 0 then n + limit else 0
    ensures var report := RunApply(s, c, expected, limit, env).1;
      && (report.Finished? || report.UnexpectedState? ==> report.planned == m)
      && (report.Finished? ==> m + report.beyondLimit == |Candidates(c.all, s.current, env.rule, c.matches, true)|)
  {
    hide Candidates, Planned, Scan, ApplyAll;
    PlannedAre(c, s.current, env.rule, limit, m);
  }

  /**
   * No undisturbed apply, however it ends, classifies or audits an unclassified item beyond the
   * first m candidates.
   */
  lemma LimitIsRespected(s: State, c: Corpus, expected: string, limit: int, env: Env, m: nat, e: Evidence)
    requires Alone(env) && DistinctIds(c.all)
    requires var n := |Candidates(c.all, s.current, env.rule, c.matches, true)|;
      m == if limit >= n then n else if limit >= 0 then limit else if n + limit >= 0 then n + limit else 0
    requires e in c.all && e.id !in s.current && e !in Candidates(c.all, s.current, env.rule, c.matches, true)[..m]
    ensures var after := RunApply(s, c, expected, limit, env).0;
      e.id !in after.current && multiset(after.audit)[e.id] == multiset(s.audit)[e.id]
  {
    hide Candidates, Planned, Scan, ApplyAll;
    RunAuditsWrites(s, c, expected, limit, env, e.id);
    IsPlanned(c, s.current, env.rule, limit, m, e.id);
    CandidatesAreSorted(c.all, s.current, env.rule, c.matches, true);
    var first := Candidates(c.all, s.current, env.rule, c.matches, true);
    forall i | 0 <= i < m ensures first[i].id != e.id { assert first[i] in first[..m] && first[i] in first; }
    var ids := Planned(c, s.current, env.rule, limit);
    RunWritesPlanned(s, c, expected, limit, env, e.id);
  }

  /** An undisturbed run classifies planned items only. */
  lemma RunWritesPlanned(s: State, c: Corpus, expected: string, limit: int, env: Env, x: Id)
    requires Alone(env)
    ensures x in RunApply(s, c, expected, limit, env).0.current ==>
            x in s.current || x in Planned(c, s.current, env.rule, limit)
  {
    hide Scan, ApplyAll;
    var ids := Planned(c, s.current, env.rule, limit);
    var p := ApplyAll(Progress(s, 0, 0, None), ids, 0, env, Recorded(s.checkpoint.lines));
    PassWritesListed(Progress(s, 0, 0, None), ids, 0, env, Recorded(s.checkpoint.lines), x);
    assert env.others(|ids|, p.state.current) == p.state.current;
  }

  lemma {:induction false} PassWritesListed(p: Progress, ids: seq<Id>, step: nat, env: Env, done: set<Id>, x: Id)
    requires Alone(env)
    ensures x in ApplyAll(p, ids, step, env, done).state.current ==> x in p.state.current || x in ids
    decreases |ids|
  {
    hide ApplyOne;
    if p.stoppedAt.None? && ids != [] {
      StepAuditsWrites(p, ids[0], step, env, done);
      PassWritesListed(ApplyOne(p, ids[0], step, env, done), ids[1..], step + 1, env, done, x);
    }
  }

  /**
   * Whatever other producers do meanwhile, exit code 0 means that the rule is active, the manifest
   * has the expected digest, and the first m candidates carry this rule and its document type.
   */
  lemma ExitZeroMeansClassified(s: State, c: Corpus, expected: string, limit: int, env: Env, m: nat, i: nat)
    requires ExitCode(RunApply(s, c, expected, limit, env).1) == 0
    requires var n := |Candidates(c.all, s.current, env.rule, c.matches, true)|;
      m == if limit >= n then n else if limit >= 0 then limit else if n + limit >= 0 then n + limit else 0
    requires i < m
    ensures env.rule.active && c.digest(Scan(c.all, s.current, env.rule, c.matches, true)) == expected
    ensures m <= |Candidates(c.all, s.current, env.rule, c.matches, true)|
    ensures var after, id := RunApply(s, c, expected, limit, env).0.current,
                             Candidates(c.all, s.current, env.rule, c.matches, true)[i].id;
      id in after && after[id] == Classification(DeterministicRule, Some(env.rule.id), env.rule.documentType)
  {
    hide Scan, ApplyAll, Candidates, Planned, RevalidationFailures;
    PlannedAre(c, s.current, env.rule, limit, m);
    var id := Candidates(c.all, s.current, env.rule, c.matches, true)[i].id;
    assert Planned(c, s.current, env.rule, limit)[i] == id;
    assert Revalidates(id, RunApply(s, c, expected, limit, env).0.current, env.rule) by {
      NoFailuresIff(Planned(c, s.current, env.rule, limit), RunApply(s, c, expected, limit, env).0.current, env.rule);
    }
  }

  /**
   * Exactly when an undisturbed apply exits with 0: the rule is active, the checkpoint loads, the
   * manifest has the expected digest, and for each of the first m candidates the matcher names this
   * rule alone, and the item's document type, its present one or else the matcher's, is the rule's.
   */
  lemma ExitZeroIff(s: State, c: Corpus, expected: string, limit: int, env: Env, m: nat)
    requires Alone(env) && DistinctIds(c.all)
    requires var n := |Candidates(c.all, s.current, env.rule, c.matches, true)|;
      m == if limit >= n then n else if limit >= 0 then limit else if n + limit >= 0 then n + limit else 0
    ensures m <= |Candidates(c.all, s.current, env.rule, c.matches, true)|
    ensures ExitCode(RunApply(s, c, expected, limit, env).1) == 0 <==>
      && env.rule.active && Loads(s.checkpoint) && c.digest(Scan(c.all, s.current, env.rule, c.matches, true)) == expected
      && forall i :: 0 <= i < m ==>
           var id := Candidates(c.all, s.current, env.rule, c.matches, true)[i].id;
           && env.verdict(id).Match? && env.verdict(id).ruleId == env.rule.id
           && env.rule.documentType == if id in s.current then s.current[id].documentType else env.verdict(id).documentType
  {
    hide Scan, Candidates, Planned, RunApply, Loads, ResolvesToRule;
    PlannedResolveIff(s, c, expected, limit, env);
    PlannedAre(c, s.current, env.rule, limit, m);
    CandidatesAreSorted(c.all, s.current, env.rule, c.matches, true);
    var first, ids := Candidates(c.all, s.current, env.rule, c.matches, true), Planned(c, s.current, env.rule, limit);
    forall i | 0 <= i < m
      ensures ids[i] == first[i].id
      ensures ResolvesToRule(first[i].id, s.current, env) <==>
        && env.verdict(first[i].id).Match? && env.verdict(first[i].id).ruleId == env.rule.id
        && (env.rule.documentType == if first[i].id in s.current then s.current[first[i].id].documentType
                                     else env.verdict(first[i].id).documentType)
    {
      assert first[i] in first;
      ResolvesIff(first[i].id, s.current, env);
    }
  }

  lemma ResolvesIff(id: Id, current: Current, env: Env)
    requires id in current ==> current[id].source == DeterministicRule && current[id].ruleId == Some(env.rule.id)
    ensures ResolvesToRule(id, current, env) <==>
      && env.verdict(id).Match? && env.verdict(id).ruleId == env.rule.id
      && env.rule.documentType == if id in current then current[id].documentType else env.verdict(id).documentType
  {}

  /** After an undisturbed exit 0 exactly the first m candidates, and those classified before, carry the rule. */
  lemma ExitZeroWindow(s: State, c: Corpus, expected: string, limit: int, env: Env, m: nat, k: nat)
    requires Alone(env) && DistinctIds(c.all)
    requires ExitCode(RunApply(s, c, expected, limit, env).1) == 0
    requires var n := |Candidates(c.all, s.current, env.rule, c.matches, true)|;
      m == if limit >= n then n else if limit >= 0 then limit else if n + limit >= 0 then n + limit else 0
    requires k < |Candidates(c.all, s.current, env.rule, c.matches, true)|
    ensures var after, id := RunApply(s, c, expected, limit, env).0.current,
                             Candidates(c.all, s.current, env.rule, c.matches, true)[k].id;
      (id in after && after[id].source == DeterministicRule && after[id].ruleId == Some(env.rule.id)) <==>
      (k < m || id in s.current)
  {
    hide Scan, ApplyAll, Candidates, Planned, RunApply;
    CandidatesAreSorted(c.all, s.current, env.rule, c.matches, true);
    var first := Candidates(c.all, s.current, env.rule, c.matches, true);
    assert first[k] in first;
    if k < m {
      ExitZeroMeansClassified(s, c, expected, limit, env, m, k);
    } else if first[k].id in s.current {
      RunKeepsClassified(s, c, expected, limit, env, first[k].id);
    } else {
      forall i | 0 <= i < m ensures first[i] != first[k] {}
      LimitIsRespected(s, c, expected, limit, env, m, first[k]);
    }
  }

  lemma {:induction false} PassKeepsClassified(p: Progress, ids: seq<Id>, step: nat, env: Env, done: set<Id>, x: Id)
    requires Alone(env) && x in p.state.current
    ensures var after := ApplyAll(p, ids, step, env, done).state.current; x in after && after[x] == p.state.current[x]
    decreases |ids|
  {
    hide Append;
    if p.stoppedAt.None? && ids != [] {
      assert env.others(step, p.state.current) == p.state.current;
      PassKeepsClassified(ApplyOne(p, ids[0], step, env, done), ids[1..], step + 1, env, done, x);
    }
  }

  /** Nothing is superseded: an undisturbed run, however it ends, leaves every existing classification alone. */
  lemma RunKeepsClassified(s: State, c: Corpus, expected: string, limit: int, env: Env, x: Id)
    requires Alone(env) && x in s.current
    ensures var after := RunApply(s, c, expected, limit, env).0.current; x in after && after[x] == s.current[x]
  {
    hide Scan, ApplyAll;
    var ids := Planned(c, s.current, env.rule, limit);
    var p := ApplyAll(Progress(s, 0, 0, None), ids, 0, env, Recorded(s.checkpoint.lines));
    PassKeepsClassified(Progress(s, 0, 0, None), ids, 0, env, Recorded(s.checkpoint.lines), x);
    assert env.others(|ids|, p.state.current) == p.state.current;
  }

  // ---------------------------------------------------------------------------------------------
  // The script
  // ---------------------------------------------------------------------------------------------

  class Reprocessor {
    var current: Current
    var audit: seq<Id>
    var checkpoint: Log

    ghost function Snapshot(): State
      reads this
    {
      State(current, audit, checkpoint)
    }

    constructor (current: Current, audit: seq<Id>, checkpoint: Log)
      ensures Snapshot() == State(current, audit, checkpoint)
    {
      this.current, this.audit, this.checkpoint := current, audit, checkpoint;
    }

    /** `_scan_candidates`: the sorted candidates and the counts of the report. */
    method ScanCandidates(listing: seq<Evidence>, rule: Rule, matches: Evidence -> bool, pageSize: nat, includeOwn: bool)
      returns (candidates: seq<Evidence>, matching: nat, classified: nat)
      ensures candidates == Candidates(Reached(listing, pageSize), current, rule, matches, includeOwn)
      ensures matching == MatchingCount(Reached(listing, pageSize), matches)
      ensures classified == ClassifiedCount(Reached(listing, pageSize), current, matches)
    {
      hide S.Sort, Selected, MatchingCount, ClassifiedCount;
      var all := ListAllEvidence(listing, pageSize);
      candidates, matching, classified := [], 0, 0;
      ghost var want := Selected(all, current, rule, matches, includeOwn);
      var i := 0;
      while i < |all|
        invariant 0 <= i <= |all|
        invariant candidates + Selected(all[i..], current, rule, matches, includeOwn) == want
        invariant matching + MatchingCount(all[i..], matches) == MatchingCount(all, matches)
        invariant classified + ClassifiedCount(all[i..], current, matches) == ClassifiedCount(all, current, matches)
      {
        var e := all[i];
        ScanStep(all, i, current, rule, matches, includeOwn);
        ghost var rest := Selected(all[i + 1..], current, rule, matches, includeOwn);
        assert candidates + ([e] + rest) == (candidates + [e]) + rest && [] + rest == rest;
        if matches(e) {
          matching := matching + 1;
          if e.id !in current {
            candidates := candidates + [e];
          } else {
            classified := classified + 1;
            if includeOwn && OwnedBy(current[e.id], rule) { candidates := candidates + [e]; }
          }
        }
        i := i + 1;
      }
      assert all[i..] == [];
      ScanEnd(current, rule, matches, includeOwn);
      assert candidates == want;
      candidates := S.Sort(candidates, ByArrival);
    }

    /** `classify_evidence_deterministically`, after what other producers did just before. */
    method ClassifyDeterministically(id: Id, step: nat, env: Env) returns (result: Result)
      modifies this`current, this`audit
      ensures (current, result) == Classify(id, env.others(step, old(current)), env.verdict(id))
      ensures audit == if result.outcome == CLASSIFIED then old(audit) + [id] else old(audit)
    {
      current := env.others(step, current);
      match env.verdict(id)
      case NoInput => return Result(NO_APPLICABLE_RULE_INPUT, None);
      case NoMatch => return Result(NO_MATCH, None);
      case Conflict => return Result(CONFLICT, None);
      case Match(ruleId, documentType) =>
        if id !in current {
          current := current[id := Classification(DeterministicRule, Some(ruleId), documentType)];
          audit := audit + [id];
          return Result(CLASSIFIED, Some(ruleId));
        }
        if current[id].source == DeterministicRule && current[id].ruleId == Some(ruleId) {
          return Result(EXISTING, Some(ruleId));
        }
        return Result(CURRENT_CLASSIFICATION_EXISTS, None);
    }

    method ApplyCandidates(ids: seq<Id>, env: Env, done: set<Id>)
      returns (classified: nat, existing: nat, stoppedAt: Option<Id>)
      modifies this
      ensures Progress(Snapshot(), classified, existing, stoppedAt) ==
              ApplyAll(Progress(old(Snapshot()), 0, 0, None), ids, 0, env, done)
    {
      hide Classify, Append;
      classified, existing, stoppedAt := 0, 0, None;
      ghost var want := ApplyAll(Progress(Snapshot(), 0, 0, None), ids, 0, env, done);
      var i := 0;
      while i < |ids|
        invariant 0 <= i <= |ids| && stoppedAt.None?
        invariant ApplyAll(Progress(Snapshot(), classified, existing, None), ids[i..], i, env, done) == want
      {
        assert ids[i..][0] == ids[i] && ids[i..][1..] == ids[i + 1..];
        var result := ClassifyDeterministically(ids[i], i, env);
        if !Accepted(result, env.rule) { stoppedAt := Some(ids[i]); return; }
        if result.outcome == CLASSIFIED { classified := classified + 1; } else { existing := existing + 1; }
        checkpoint := Append(checkpoint, Record(ids[i], Detail(result.outcome, ids[i] in done)));
        i := i + 1;
      }
    }

    method Revalidate(ids: seq<Id>, rule: Rule) returns (failures: seq<Id>)
      ensures failures == RevalidationFailures(ids, current, rule)
    {
      failures := [];
      var i := 0;
      while i < |ids|
        invariant 0 <= i <= |ids|
        invariant failures + RevalidationFailures(ids[i..], current, rule) == RevalidationFailures(ids, current, rule)
      {
        assert ids[i..][0] == ids[i] && ids[i..][1..] == ids[i + 1..];
        if !Revalidates(ids[i], current, rule) { failures := failures + [ids[i]]; }
        i := i + 1;
      }
    }

    /** `run_apply`, for a rule that exists. */
    method Apply(c: Corpus, expected: string, limit: int, env: Env, pageSize: nat) returns (report: Report)
      modifies this
      ensures (Snapshot(), report) ==
              RunApply(old(Snapshot()), c.(all := Reached(c.all, pageSize)), expected, limit, env)
    {
      hide ApplyAll, RevalidationFailures, Manifest, Candidates, Loads, Recorded;
      if !env.rule.active { return RuleNotActive; }
      var candidates, matching, classifiedBefore := ScanCandidates(c.all, env.rule, c.matches, pageSize, true);
      var manifest := Manifest(candidates, env.rule);
      if c.digest(manifest) != expected { return ManifestHashMismatch; }
      var ids := IdsOf(Take(manifest, limit));
      var done := LoadCheckpoint(checkpoint);
      if done.Err? { return CheckpointRaises; }
      var classified, existing, stoppedAt := ApplyCandidates(ids, env, done.value);
      if stoppedAt.Some? {
        return UnexpectedState(stoppedAt.value, |ids|, classified + existing, classified, existing);
      }
      current := env.others(|ids|, current);
      var failures := Revalidate(ids, env.rule);
      report := Finished(|ids|, |manifest| - |ids|, classified, existing, failures);
    }
  }
}
