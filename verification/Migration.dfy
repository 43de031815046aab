/** The resumable object-store migration (scripts/migrate_object_store.py). */
module Migration {
  import opened Common
  import opened Checkpoint

  type Key = string
  type Bytes = seq<bv8>
  type Bucket = map<Key, Bytes>

  // ---------------------------------------------------------------------------------------------
  // Paginated listing
  // ---------------------------------------------------------------------------------------------

  /** One `list_objects_v2` response; the token, when present, asks for the following page. */
  datatype Page = Page(keys: seq<Key>, truncated: bool, token: bool)

  predicate LastPage(p: Page) { !p.truncated || !p.token }

  function KeySet(p: Page): set<Key> { set k | k in p.keys }

  /** The keys on the pages up to and including the first one that is not continued. */
  function Listed(pages: seq<Page>): set<Key> {
    if pages == [] then {}
    else KeySet(pages[0]) + (if LastPage(pages[0]) then {} else Listed(pages[1..]))
  }

  /** A listing as the service promises it: exactly the last page ends it, and together they hold `keys`. */
  ghost predicate Lists(pages: seq<Page>, keys: set<Key>) {
    && pages != []
    && (forall i :: 0 <= i < |pages| ==> (LastPage(pages[i]) <==> i == |pages| - 1))
    && (forall k :: k in keys <==> exists i :: 0 <= i < |pages| && k in pages[i].keys)
  }

  method ListAllKeys(pages: seq<Page>) returns (keys: set<Key>)
    requires exists i :: 0 <= i < |pages| && LastPage(pages[i])
    ensures keys == Listed(pages)
  {
    keys := {};
    var page := 0;
    while true
      invariant 0 <= page <= |pages|
      invariant Listed(pages) == keys + Listed(pages[page..])
      invariant exists i :: page <= i < |pages| && LastPage(pages[i])
      decreases |pages| - page
    {
      keys := keys + KeySet(pages[page]);
      assert pages[page..][1..] == pages[page + 1..];
      if !pages[page].truncated { break; }
      if !pages[page].token { break; }
      page := page + 1;
    }
  }

  ghost predicate Continued(pages: seq<Page>, i: nat)
    requires i <= |pages|
  {
    forall j :: 0 <= j < i ==> pages[j].truncated && pages[j].token
  }

  lemma ContinuedToFirst(pages: seq<Page>)
    ensures Continued(pages, 0)
  {}

  lemma ContinuedStep(pages: seq<Page>, i: nat)
    requires i < |pages|
    ensures Continued(pages, i + 1) <==> pages[0].truncated && pages[0].token && Continued(pages[1..], i)
  {
    assert forall j :: 0 < j < i + 1 ==> pages[j] == pages[1..][j - 1];
    assert forall j :: 0 <= j < i ==> pages[1..][j] == pages[j + 1];
  }

  lemma {:induction false} ListedWhileContinued(pages: seq<Page>, k: Key)
    ensures k in Listed(pages) <==> exists i :: 0 <= i < |pages| && k in pages[i].keys && Continued(pages, i)
  {
    hide Continued;
    if pages != [] {
      ListedWhileContinued(pages[1..], k);
      ContinuedToFirst(pages);
      if k in Listed(pages) && k !in pages[0].keys {
        var i :| 0 <= i < |pages| - 1 && k in pages[1..][i].keys && Continued(pages[1..], i);
        ContinuedStep(pages, i);
        assert k in pages[i + 1].keys;
      }
      if exists i :: 0 < i < |pages| && k in pages[i].keys && Continued(pages, i) {
        var i :| 0 < i < |pages| && k in pages[i].keys && Continued(pages, i);
        ContinuedStep(pages, i - 1);
        assert k in pages[1..][i - 1].keys;
      }
    }
  }

  /** The listing takes up exactly the pages before which every page was truncated and had a token. */
  lemma ListedIff(pages: seq<Page>, k: Key)
    ensures k in Listed(pages) <==>
      exists i :: 0 <= i < |pages| && k in pages[i].keys && forall j :: 0 <= j < i ==> pages[j].truncated && pages[j].token
  {
    hide Listed;
    ListedWhileContinued(pages, k);
  }

  /** Whatever the page boundaries are, a complete listing yields exactly the bucket's keys. */
  lemma {:induction false} CompleteListing(pages: seq<Page>, keys: set<Key>)
    requires Lists(pages, keys)
    ensures Listed(pages) == keys
    ensures exists i :: 0 <= i < |pages| && LastPage(pages[i])
  {
    assert LastPage(pages[|pages| - 1]);
    forall k ensures k in Listed(pages) <==> k in keys { ListedIffOnAPage(pages, k); }
  }

  lemma {:induction false} ListedIffOnAPage(pages: seq<Page>, k: Key)
    requires forall i :: 0 <= i < |pages| ==> (LastPage(pages[i]) <==> i == |pages| - 1)
    ensures k in Listed(pages) <==> exists i :: 0 <= i < |pages| && k in pages[i].keys
  {
    if pages != [] {
      ListedIffOnAPage(pages[1..], k);
      if exists i :: 0 <= i < |pages| && k in pages[i].keys {
        var i :| 0 <= i < |pages| && k in pages[i].keys;
        assert i > 0 ==> k in pages[1..][i - 1].keys;
      }
      if k in Listed(pages) && k !in KeySet(pages[0]) {
        var i :| 0 <= i < |pages| - 1 && k in pages[1..][i].keys;
        assert k in pages[i + 1].keys;
      }
    }
  }

  // ---------------------------------------------------------------------------------------------
  // One key
  // ---------------------------------------------------------------------------------------------

  /** A failing PUT may or may not have taken effect. */
  datatype Put = PutDone | PutLost | PutAppliedButRaised

  /** The GET after a PUT: it yields the object, raises, or yields other bytes. */
  datatype Readback = ReadSame | ReadRaises | ReadOther

  /** How the store calls for one key turn out; false means that the call raises. */
  datatype Calls = Calls(getSource: bool, head: bool, getDest: bool, put: Put, readback: Readback)

  const RELIABLE: Calls := Calls(true, true, true, PutDone, ReadSame)

  datatype Reason = SourceUnreadable | SourceCorrupt | HeadFailed | DestUnreadable | DestDiffers | PutFailed
                  | ReadbackFailed | ReadbackDiffers

  datatype Failure = Failure(key: Key, reason: Reason)

  /** `RunResult`: the counters of one run. */
  datatype Tally = Tally(
    migrated: int,
    remigrated: int,
    identical: int,
    verified: int,
    failureCount: int,
    failures: seq<Failure>,
    bytes: int)

  const ZERO: Tally := Tally(0, 0, 0, 0, 0, [], 0)

  /** A checkpoint line holds a key and its outcome. */
  type Log = File<Key, string>

  /** Everything a run changes. */
  datatype Progress = Progress(dest: Bucket, checkpoint: Log, tally: Tally)

  /** What stays fixed during a run: the source bytes, the hash functions and the fate of each call. */
  datatype Env = Env(source: Bucket, expected: Key -> Option<string>, sha: Bytes -> string, calls: Key -> Calls)

  predicate Corrupt(e: Env, k: Key)
    requires k in e.source
  {
    e.expected(k).Some? && e.sha(e.source[k]) != e.expected(k).value
  }

  function Fail(p: Progress, k: Key, reason: Reason): Progress {
    p.(tally := p.tally.(failureCount := p.tally.failureCount + 1, failures := p.tally.failures + [Failure(k, reason)]))
  }

  /** The line written for a key; an empty key reads back as no key. */
  function KeyLine(k: Key, outcome: string): Line<Key, string> {
    if k == "" then Keyless else Record(k, outcome)
  }

  function Done(p: Progress, k: Key, tally: Tally, outcome: string): Progress {
    p.(tally := tally, checkpoint := Append(p.checkpoint, KeyLine(k, outcome)))
  }

  function MigrateKey(p: Progress, k: Key, e: Env, was: bool): Progress
    requires k in e.source
  {
    var c, data := e.calls(k), e.source[k];
    if !c.getSource then Fail(p, k, SourceUnreadable)
    else if Corrupt(e, k) then Fail(p, k, SourceCorrupt)
    else if !c.head then Fail(p, k, HeadFailed)
    else if k in p.dest then
      if !c.getDest then Fail(p, k, DestUnreadable)
      else if p.dest[k] == data then
        if was then Done(p, k, p.tally.(verified := p.tally.verified + 1), "verified_via_checkpoint")
        else Done(p, k, p.tally.(identical := p.tally.identical + 1), "already_identical")
      else Fail(p, k, DestDiffers)
    else
      var written := p.(dest := if c.put == PutLost then p.dest else p.dest[k := data]);
      if c.put != PutDone then Fail(written, k, PutFailed)
      else if c.readback == ReadRaises then Fail(written, k, ReadbackFailed)
      else if c.readback == ReadOther then Fail(written, k, ReadbackDiffers)
      else
        var t := written.tally.(bytes := written.tally.bytes + |data|);
        if was then Done(written, k, t.(remigrated := t.remigrated + 1), "remigrated_checkpoint_missing")
        else Done(written, k, t.(migrated := t.migrated + 1), "migrated")
  }

  function MigrateAll(p: Progress, order: seq<Key>, e: Env, done: set<Key>): Progress
    requires forall k :: k in order ==> k in e.source
    decreases |order|
  {
    if order == [] then p
    else MigrateAll(MigrateKey(p, order[0], e, order[0] in done), order[1..], e, done)
  }

  // ---------------------------------------------------------------------------------------------
  // What a pass over the keys does, told from the starting destination alone
  // ---------------------------------------------------------------------------------------------

  predicate Sound(e: Env, k: Key) {
    k in e.source && e.calls(k).getSource && !Corrupt(e, k) && e.calls(k).head
  }

  /** The pass writes key `k`, whether or not it then counts as a success. */
  predicate Places(dest: Bucket, e: Env, k: Key) {
    Sound(e, k) && k !in dest && e.calls(k).put != PutLost
  }

  predicate Copies(dest: Bucket, e: Env, k: Key) {
    Sound(e, k) && k !in dest && e.calls(k).put == PutDone && e.calls(k).readback == ReadSame
  }

  predicate Confirms(dest: Bucket, e: Env, k: Key) {
    Sound(e, k) && k in dest && e.calls(k).getDest && dest[k] == e.source[k]
  }

  predicate Succeeds(dest: Bucket, e: Env, k: Key) {
    Copies(dest, e, k) || Confirms(dest, e, k)
  }

  function FailingKeys(order: seq<Key>, dest: Bucket, e: Env): seq<Key> {
    if order == [] then []
    else (if Succeeds(dest, e, order[0]) then [] else [order[0]]) + FailingKeys(order[1..], dest, e)
  }

  function Copied(order: seq<Key>, dest: Bucket, e: Env): int {
    if order == [] then 0 else (if Copies(dest, e, order[0]) then 1 else 0) + Copied(order[1..], dest, e)
  }

  function Confirmed(order: seq<Key>, dest: Bucket, e: Env): int {
    if order == [] then 0 else (if Confirms(dest, e, order[0]) then 1 else 0) + Confirmed(order[1..], dest, e)
  }

  /** Copied keys that are recorded in the checkpoint (or, for `was` false, that are not). */
  function CopiedAs(order: seq<Key>, dest: Bucket, e: Env, done: set<Key>, was: bool): int {
    if order == [] then 0
    else (if Copies(dest, e, order[0]) && (order[0] in done) == was then 1 else 0) + CopiedAs(order[1..], dest, e, done, was)
  }

  function ConfirmedAs(order: seq<Key>, dest: Bucket, e: Env, done: set<Key>, was: bool): int {
    if order == [] then 0
    else (if Confirms(dest, e, order[0]) && (order[0] in done) == was then 1 else 0)
         + ConfirmedAs(order[1..], dest, e, done, was)
  }

  function CopiedBytes(order: seq<Key>, dest: Bucket, e: Env): int {
    if order == [] then 0
    else (if Copies(dest, e, order[0]) then |e.source[order[0]]| else 0) + CopiedBytes(order[1..], dest, e)
  }

  function KeysOf(failures: seq<Failure>): seq<Key> {
    seq(|failures|, i requires 0 <= i < |failures| => failures[i].key)
  }

  predicate Distinct(order: seq<Key>) {
    forall i, j :: 0 <= i < j < |order| ==> order[i] != order[j]
  }

  /** One key changes nothing but its own entry, and its fate depends on that entry alone. */
  lemma MigrateKeyEffect(p: Progress, k: Key, e: Env, was: bool)
    requires k in e.source
    ensures var r := MigrateKey(p, k, e, was); var d := p.dest;
      && r.dest == (if Places(d, e, k) then d[k := e.source[k]] else d)
      && KeysOf(r.tally.failures) == KeysOf(p.tally.failures) + (if Succeeds(d, e, k) then [] else [k])
      && r.tally.failureCount == p.tally.failureCount + (if Succeeds(d, e, k) then 0 else 1)
      && r.tally.migrated + r.tally.remigrated == p.tally.migrated + p.tally.remigrated + (if Copies(d, e, k) then 1 else 0)
      && r.tally.identical + r.tally.verified == p.tally.identical + p.tally.verified + (if Confirms(d, e, k) then 1 else 0)
      && r.tally.bytes == p.tally.bytes + (if Copies(d, e, k) then |e.source[k]| else 0)
  {
    hide Append;
  }

  /**
   * What one key leaves in the checkpoint: nothing unless it succeeds; else it becomes recorded, and
   * all others stay so, except that a last line without newline is lost together with the new one.
   */
  lemma MigrateKeyRecords(p: Progress, k: Key, e: Env, was: bool)
    requires k in e.source
    ensures var r := MigrateKey(p, k, e, was);
      && (!Succeeds(p.dest, e, k) ==> r.checkpoint == p.checkpoint)
      && (Succeeds(p.dest, e, k) ==> r.checkpoint.ended)
      && (Succeeds(p.dest, e, k) ==>
            Recorded(r.checkpoint.lines) == Recorded(Kept(p.checkpoint)) + (if k != "" && !Glues(p.checkpoint) then {k} else {}))
      && (Loads(p.checkpoint) ==> Loads(r.checkpoint))
  {
    hide Append, Recorded, Kept, Glues, Loads;
    AppendRecords(p.checkpoint, KeyLine(k, "verified_via_checkpoint"));
    AppendRecords(p.checkpoint, KeyLine(k, "already_identical"));
    AppendRecords(p.checkpoint, KeyLine(k, "remigrated_checkpoint_missing"));
    AppendRecords(p.checkpoint, KeyLine(k, "migrated"));
  }

  /** A run never makes a readable checkpoint unreadable. */
  lemma {:induction false} PassKeepsReadable(p: Progress, order: seq<Key>, e: Env, done: set<Key>)
    requires (forall k :: k in order ==> k in e.source) && Loads(p.checkpoint)
    ensures Loads(MigrateAll(p, order, e, done).checkpoint)
    decreases |order|
  {
    hide Loads, MigrateKey;
    if order != [] {
      assert order[0] in order && forall k :: k in order[1..] ==> k in order;
      MigrateKeyRecords(p, order[0], e, order[0] in done);
      PassKeepsReadable(MigrateKey(p, order[0], e, order[0] in done), order[1..], e, done);
    }
  }

  /** A change at one key does not affect the fate of the others. */
  lemma {:induction false} OthersUnaffected(order: seq<Key>, a: Bucket, b: Bucket, e: Env)
    requires forall k :: k in order ==> (k in a <==> k in b) && (k in a ==> a[k] == b[k])
    ensures FailingKeys(order, a, e) == FailingKeys(order, b, e)
    ensures Copied(order, a, e) == Copied(order, b, e)
    ensures Confirmed(order, a, e) == Confirmed(order, b, e)
    ensures CopiedBytes(order, a, e) == CopiedBytes(order, b, e)
  {
    if order != [] {
      assert order[0] in order;
      OthersUnaffected(order[1..], a, b, e);
    }
  }

  /**
   * A pass over distinct keys: which keys fail, how many are copied or confirmed and how many bytes
   * move follow from the starting destination and the calls, never from the checkpoint.
   */
  lemma {:induction false} PassTally(p: Progress, order: seq<Key>, e: Env, done: set<Key>)
    requires Distinct(order) && forall k :: k in order ==> k in e.source
    ensures var t := MigrateAll(p, order, e, done).tally; var d := p.dest;
      && KeysOf(t.failures) == KeysOf(p.tally.failures) + FailingKeys(order, d, e)
      && t.failureCount == p.tally.failureCount + |FailingKeys(order, d, e)|
      && t.migrated + t.remigrated == p.tally.migrated + p.tally.remigrated + Copied(order, d, e)
      && t.identical + t.verified == p.tally.identical + p.tally.verified + Confirmed(order, d, e)
      && t.bytes == p.tally.bytes + CopiedBytes(order, d, e)
    decreases |order|
  {
    hide MigrateKey, Places, Confirms, Copies, Succeeds;
    if order != [] {
      var k := order[0];
      assert k in order;
      var p1 := MigrateKey(p, k, e, k in done);
      MigrateKeyEffect(p, k, e, k in done);
      assert k !in order[1..];
      OthersUnaffected(order[1..], p1.dest, p.dest, e);
      PassTally(p1, order[1..], e, done);
    }
  }

  /** After a pass the destination holds its old objects unchanged, plus exactly the placed keys. */
  lemma {:induction false} PassDestination(p: Progress, order: seq<Key>, e: Env, done: set<Key>, k: Key)
    requires Distinct(order) && forall x :: x in order ==> x in e.source
    ensures var d := MigrateAll(p, order, e, done).dest;
      && (k in d <==> k in p.dest || (k in order && Places(p.dest, e, k)))
      && (k in p.dest ==> d[k] == p.dest[k])
      && (k in d && k !in p.dest ==> d[k] == e.source[k])
    decreases |order|
  {
    if order != [] {
      assert order[0] in order;
      var p1 := MigrateKey(p, order[0], e, order[0] in done);
      MigrateKeyEffect(p, order[0], e, order[0] in done);
      assert order[0] !in order[1..];
      assert k in order <==> k == order[0] || k in order[1..];
      PassDestination(p1, order[1..], e, done, k);
    }
  }

  /** No object that the destination already holds is ever changed or removed. */
  lemma DestinationNeverOverwritten(p: Progress, order: seq<Key>, e: Env, done: set<Key>)
    requires Distinct(order) && forall k :: k in order ==> k in e.source
    ensures forall k :: k in p.dest ==> k in MigrateAll(p, order, e, done).dest
                                        && MigrateAll(p, order, e, done).dest[k] == p.dest[k]
  {
    forall k | k in p.dest ensures k in MigrateAll(p, order, e, done).dest
                                   && MigrateAll(p, order, e, done).dest[k] == p.dest[k] {
      PassDestination(p, order, e, done, k);
    }
  }

  lemma {:induction false} CountsPartition(order: seq<Key>, dest: Bucket, e: Env)
    ensures Copied(order, dest, e) + Confirmed(order, dest, e) + |FailingKeys(order, dest, e)| == |order|
  {
    if order != [] { CountsPartition(order[1..], dest, e); }
  }

  /** The four outcome counters and the failure count add up to the number of keys. */
  lemma CountersAddUp(dest: Bucket, checkpoint: Log, order: seq<Key>, e: Env, done: set<Key>)
    requires Distinct(order) && forall k :: k in order ==> k in e.source
    ensures var t := MigrateAll(Progress(dest, checkpoint, ZERO), order, e, done).tally;
      && t.migrated + t.remigrated + t.identical + t.verified + t.failureCount == |order|
      && t.failureCount == |t.failures|
  {
    PassTally(Progress(dest, checkpoint, ZERO), order, e, done);
    CountsPartition(order, dest, e);
    assert |KeysOf(MigrateAll(Progress(dest, checkpoint, ZERO), order, e, done).tally.failures)| ==
           |MigrateAll(Progress(dest, checkpoint, ZERO), order, e, done).tally.failures|;
  }

  lemma {:induction false} OthersCountAlike(order: seq<Key>, a: Bucket, b: Bucket, e: Env, done: set<Key>, was: bool)
    requires forall k :: k in order ==> (k in a <==> k in b) && (k in a ==> a[k] == b[k])
    ensures CopiedAs(order, a, e, done, was) == CopiedAs(order, b, e, done, was)
    ensures ConfirmedAs(order, a, e, done, was) == ConfirmedAs(order, b, e, done, was)
  {
    if order != [] {
      assert order[0] in order;
      OthersCountAlike(order[1..], a, b, e, done, was);
    }
  }

  /** One key moves exactly the counter of its outcome and of its standing in the checkpoint. */
  lemma MigrateKeySplit(p: Progress, k: Key, e: Env, was: bool)
    requires k in e.source
    ensures var r, d := MigrateKey(p, k, e, was), p.dest;
      && r.dest == (if Places(d, e, k) then d[k := e.source[k]] else d)
      && r.tally.remigrated == p.tally.remigrated + (if Copies(d, e, k) && was then 1 else 0)
      && r.tally.migrated == p.tally.migrated + (if Copies(d, e, k) && !was then 1 else 0)
      && r.tally.verified == p.tally.verified + (if Confirms(d, e, k) && was then 1 else 0)
      && r.tally.identical == p.tally.identical + (if Confirms(d, e, k) && !was then 1 else 0)
  {
    hide Append;
  }

  /**
   * What the checkpoint decides, key by key: a confirmed key counts as verified exactly when it is
   * recorded and as identical otherwise, a copied one as remigrated or as migrated.
   */
  lemma {:induction false} CheckpointDecidesSplit(p: Progress, order: seq<Key>, e: Env, done: set<Key>)
    requires Distinct(order) && forall k :: k in order ==> k in e.source
    ensures var t := MigrateAll(p, order, e, done).tally;
      && t.remigrated == p.tally.remigrated + CopiedAs(order, p.dest, e, done, true)
      && t.migrated == p.tally.migrated + CopiedAs(order, p.dest, e, done, false)
      && t.verified == p.tally.verified + ConfirmedAs(order, p.dest, e, done, true)
      && t.identical == p.tally.identical + ConfirmedAs(order, p.dest, e, done, false)
    decreases |order|
  {
    hide MigrateKey, Places, Confirms, Copies;
    if order != [] {
      var k := order[0];
      assert k in order;
      var p1 := MigrateKey(p, k, e, k in done);
      MigrateKeySplit(p, k, e, k in done);
      assert k !in order[1..];
      OthersCountAlike(order[1..], p1.dest, p.dest, e, done, true);
      OthersCountAlike(order[1..], p1.dest, p.dest, e, done, false);
      CheckpointDecidesSplit(p1, order[1..], e, done);
    }
  }

  // ---------------------------------------------------------------------------------------------
  // A whole run
  // ---------------------------------------------------------------------------------------------

  /** The rest of the outside world: database keys, the second source listing, and raising calls. */
  datatype Surroundings = Surroundings(
    referenced: set<Key>,
    sourceFinal: set<Key>,
    firstListing: bool,
    database: bool,
    secondListing: bool,
    destListing: bool)

  ghost predicate Enumerates(order: seq<Key>, keys: set<Key>) {
    Distinct(order) && (forall k :: k in order <==> k in keys)
  }

  function Verdict(destKeys: set<Key>, failureCount: int, sourceInitial: set<Key>, w: Surroundings): int {
    if w.secondListing && w.destListing && failureCount == 0 && w.sourceFinal == sourceInitial
       && w.sourceFinal <= destKeys && destKeys <= w.sourceFinal
    then 0 else 1
  }

  /** The run ends before it reads the checkpoint: a listing or the database fails, or a reference is missing. */
  predicate StopsEarly(e: Env, w: Surroundings) {
    !w.firstListing || !w.database || !(w.referenced <= e.source.Keys)
  }

  /**
   * A run and its exit code; a call that raises outside `migrate_key`, or a checkpoint line on which
   * the load raises, ends the run with code 1.
   */
  function RunMigration(dest: Bucket, checkpoint: Log, order: seq<Key>, e: Env, w: Surroundings): (Progress, int)
    requires Enumerates(order, e.source.Keys)
  {
    var start := Progress(dest, checkpoint, ZERO);
    if StopsEarly(e, w) || !Loads(checkpoint) then (start, 1)
    else
      var p := MigrateAll(start, order, e, Recorded(checkpoint.lines));
      (p, Verdict(p.dest.Keys, p.tally.failureCount, e.source.Keys, w))
  }

  lemma EmptyDifference(a: set<Key>, b: set<Key>)
    ensures a - b == {} <==> a <= b
  {
    if a - b == {} {
      forall k | k in a ensures k in b { assert k !in a - b; }
    }
  }

  /** Exit code 0 means equality: the destination holds exactly the source's keys and bytes. */
  lemma ExitZeroMeansEqual(dest: Bucket, checkpoint: Log, order: seq<Key>, e: Env, w: Surroundings)
    requires Enumerates(order, e.source.Keys)
    requires RunMigration(dest, checkpoint, order, e, w).1 == 0
    ensures RunMigration(dest, checkpoint, order, e, w).0.dest == e.source
    ensures w.referenced <= e.source.Keys && w.sourceFinal == e.source.Keys
  {
    var start := Progress(dest, checkpoint, ZERO);
    var p := MigrateAll(start, order, e, Recorded(checkpoint.lines));
    PassTally(start, order, e, Recorded(checkpoint.lines));
    forall k | k in e.source ensures k in p.dest && p.dest[k] == e.source[k] {
      PassDestination(start, order, e, Recorded(checkpoint.lines), k);
      NoneFailing(order, dest, e, k);
    }
    assert p.dest.Keys == e.source.Keys;
  }

  lemma {:induction false} NoneFailing(order: seq<Key>, dest: Bucket, e: Env, k: Key)
    ensures k in FailingKeys(order, dest, e) <==> k in order && !Succeeds(dest, e, k)
  {
    if order != [] {
      NoneFailing(order[1..], dest, e, k);
      assert k in order <==> k == order[0] || k in order[1..];
    }
  }

  /** Exactly when a run exits with 0, in terms of its inputs. */
  lemma ExitZeroIff(dest: Bucket, checkpoint: Log, order: seq<Key>, e: Env, w: Surroundings)
    requires Enumerates(order, e.source.Keys)
    ensures RunMigration(dest, checkpoint, order, e, w).1 == 0 <==>
      && w.firstListing && w.database && w.secondListing && w.destListing && Loads(checkpoint)
      && w.referenced <= e.source.Keys && w.sourceFinal == e.source.Keys
      && dest.Keys <= e.source.Keys
      && (forall k :: k in e.source ==>
            && e.calls(k).getSource && e.calls(k).head
            && (e.expected(k).None? || e.sha(e.source[k]) == e.expected(k).value)
            && (if k in dest then e.calls(k).getDest && dest[k] == e.source[k]
                else e.calls(k).put == PutDone && e.calls(k).readback == ReadSame))
  {
    assert forall k :: k in e.source ==> (Succeeds(dest, e, k) <==>
      && e.calls(k).getSource && e.calls(k).head
      && (e.expected(k).None? || e.sha(e.source[k]) == e.expected(k).value)
      && (if k in dest then e.calls(k).getDest && dest[k] == e.source[k]
          else e.calls(k).put == PutDone && e.calls(k).readback == ReadSame));
    SucceedingRunIff(dest, checkpoint, order, e, w);
  }

  lemma SucceedingRunIff(dest: Bucket, checkpoint: Log, order: seq<Key>, e: Env, w: Surroundings)
    requires Enumerates(order, e.source.Keys)
    ensures RunMigration(dest, checkpoint, order, e, w).1 == 0 <==>
      && w.firstListing && w.database && w.secondListing && w.destListing && Loads(checkpoint)
      && w.referenced <= e.source.Keys && w.sourceFinal == e.source.Keys
      && dest.Keys <= e.source.Keys
      && (forall k :: k in e.source ==> Succeeds(dest, e, k))
  {
    hide MigrateAll, Recorded, Sound, Copies, Confirms, Places, Succeeds, Loads;
    var start := Progress(dest, checkpoint, ZERO);
    var p := MigrateAll(start, order, e, Recorded(checkpoint.lines));
    PassTally(start, order, e, Recorded(checkpoint.lines));
    var failing := FailingKeys(order, dest, e);
    forall k ensures k in failing <==> k in order && !Succeeds(dest, e, k) { NoneFailing(order, dest, e, k); }
    assert failing == [] <==> forall k :: k in e.source ==> Succeeds(dest, e, k) by {
      assert failing != [] ==> failing[0] in failing;
    }
    forall k ensures k in p.dest <==> k in dest || (k in order && Places(dest, e, k))
      ensures Succeeds(dest, e, k) ==> k in dest || Places(dest, e, k)
    {
      PassDestination(start, order, e, Recorded(checkpoint.lines), k);
      SuccessIsPresence(dest, e, k);
    }
  }

  lemma SuccessIsPresence(dest: Bucket, e: Env, k: Key)
    ensures Succeeds(dest, e, k) ==> k in dest || Places(dest, e, k)
  {}

  /**
   * Source corruption is never carried over: an object whose bytes do not hash to what its key encodes
   * is not written, what the destination holds under its key stays as it is, and the run fails.
   */
  lemma CorruptObjectStopsAtSource(dest: Bucket, checkpoint: Log, order: seq<Key>, e: Env, w: Surroundings, k: Key)
    requires Enumerates(order, e.source.Keys) && k in e.source
    requires e.expected(k).Some? && e.sha(e.source[k]) != e.expected(k).value
    ensures var (p, exit) := RunMigration(dest, checkpoint, order, e, w);
      && exit != 0 && (k in p.dest <==> k in dest) && (k in dest ==> p.dest[k] == dest[k])
  {
    ExitZeroIff(dest, checkpoint, order, e, w);
    PassDestination(Progress(dest, checkpoint, ZERO), order, e, Recorded(checkpoint.lines), k);
  }

  /**
   * And an intact bucket is copied: with working calls, a checkpoint that loads, and a destination
   * that holds nothing but objects of the source, the run succeeds and the destination equals the
   * source, whichever keys encode a hash and whichever do not.
   */
  lemma IntactBucketIsCopied(dest: Bucket, checkpoint: Log, order: seq<Key>, e: Env, w: Surroundings)
    requires Enumerates(order, e.source.Keys) && Loads(checkpoint)
    requires forall k :: k in e.source ==> e.calls(k) == Calls(true, true, true, PutDone, ReadSame)
    requires forall k :: k in e.source ==> e.expected(k).None? || e.sha(e.source[k]) == e.expected(k).value
    requires forall k :: k in dest ==> k in e.source && dest[k] == e.source[k]
    requires w.firstListing && w.database && w.secondListing && w.destListing
    requires w.referenced <= e.source.Keys && w.sourceFinal == e.source.Keys
    ensures var (p, exit) := RunMigration(dest, checkpoint, order, e, w); exit == 0 && p.dest == e.source
  {
    ExitZeroIff(dest, checkpoint, order, e, w);
    ExitZeroMeansEqual(dest, checkpoint, order, e, w);
  }

  /** Why a key fails: the first check that does not pass, in this order. */
  lemma FailureReason(p: Progress, k: Key, e: Env, was: bool)
    requires k in e.source
    ensures var c, after := e.calls(k), MigrateKey(p, k, e, was).tally.failures;
      var differs := e.expected(k).Some? && e.sha(e.source[k]) != e.expected(k).value;
      && (!c.getSource ==> after == p.tally.failures + [Failure(k, SourceUnreadable)])
      && (c.getSource && differs ==> after == p.tally.failures + [Failure(k, SourceCorrupt)])
      && (c.getSource && !differs && !c.head ==> after == p.tally.failures + [Failure(k, HeadFailed)])
      && (c.getSource && !differs && c.head && k in p.dest ==>
            && (!c.getDest ==> after == p.tally.failures + [Failure(k, DestUnreadable)])
            && (c.getDest && p.dest[k] != e.source[k] ==> after == p.tally.failures + [Failure(k, DestDiffers)])
            && (c.getDest && p.dest[k] == e.source[k] ==> after == p.tally.failures))
      && (c.getSource && !differs && c.head && k !in p.dest ==>
            && (c.put != PutDone ==> after == p.tally.failures + [Failure(k, PutFailed)])
            && (c.put == PutDone && c.readback == ReadRaises ==> after == p.tally.failures + [Failure(k, ReadbackFailed)])
            && (c.put == PutDone && c.readback == ReadOther ==> after == p.tally.failures + [Failure(k, ReadbackDiffers)])
            && (c.put == PutDone && c.readback == ReadSame ==> after == p.tally.failures))
  {
    hide Append;
  }

  /** Two runs agree: same destination, same failing keys, same bytes copied, same exit code. */
  predicate SameOutcome(x: (Progress, int), y: (Progress, int)) {
    && x.0.dest == y.0.dest && x.1 == y.1
    && KeysOf(x.0.tally.failures) == KeysOf(y.0.tally.failures)
    && x.0.tally.failureCount == y.0.tally.failureCount && x.0.tally.bytes == y.0.tally.bytes
  }

  /** The two pairs of counters add up alike. */
  predicate SameSums(x: Tally, y: Tally) {
    x.migrated + x.remigrated == y.migrated + y.remigrated && x.identical + x.verified == y.identical + y.verified
  }

  /**
   * The checkpoint doctrine, for files that load: the recorded keys affect nothing but the split
   * inside the two pairs of counters.
   */
  lemma CheckpointIrrelevant(dest: Bucket, a: Log, b: Log, order: seq<Key>, e: Env, w: Surroundings)
    requires Enumerates(order, e.source.Keys) && (Loads(a) <==> Loads(b))
    ensures var x, y := RunMigration(dest, a, order, e, w), RunMigration(dest, b, order, e, w);
      SameOutcome(x, y) && SameSums(x.0.tally, y.0.tally)
  {
    var s, t := Progress(dest, a, ZERO), Progress(dest, b, ZERO);
    PassTally(s, order, e, Recorded(a.lines));
    PassTally(t, order, e, Recorded(b.lines));
    var p, q := MigrateAll(s, order, e, Recorded(a.lines)), MigrateAll(t, order, e, Recorded(b.lines));
    forall k ensures (k in p.dest <==> k in q.dest) && (k in p.dest ==> p.dest[k] == q.dest[k]) {
      PassDestination(s, order, e, Recorded(a.lines), k);
      PassDestination(t, order, e, Recorded(b.lines), k);
    }
    assert p.dest == q.dest;
  }

  /** There is nothing left to copy and nothing fails: the pass would confirm every key. */
  ghost predicate NothingToDo(dest: Bucket, e: Env) {
    forall k :: k in e.source ==>
      && k in dest && dest[k] == e.source[k]
      && e.calls(k).getSource && e.calls(k).head && e.calls(k).getDest
      && (e.expected(k).None? || e.sha(e.source[k]) == e.expected(k).value)
  }

  predicate FinalChecksPass(dest: Bucket, e: Env, w: Surroundings) {
    w.secondListing && w.destListing && w.sourceFinal == e.source.Keys && dest.Keys == e.source.Keys
  }

  /** A run whose checkpoint loads looks like one that stopped before its first key exactly when there was nothing to do. */
  lemma LooksStoppedIff(dest: Bucket, a: Log, b: Log, order: seq<Key>, e: Env, w: Surroundings)
    requires Enumerates(order, e.source.Keys) && Loads(a) && !StopsEarly(e, w)
    ensures SameOutcome(RunMigration(dest, a, order, e, w), (Progress(dest, b, ZERO), 1)) <==>
            NothingToDo(dest, e) && !FinalChecksPass(dest, e, w)
  {
    hide MigrateAll, Recorded;
    assert NothingToDo(dest, e) <==> forall k :: k in e.source ==> Confirms(dest, e, k);
    hide NothingToDo;
    var s, done := Progress(dest, a, ZERO), Recorded(a.lines);
    var p := MigrateAll(s, order, e, done);
    PassTally(s, order, e, done);
    var failing := FailingKeys(order, dest, e);
    forall k ensures k in failing <==> k in order && !Succeeds(dest, e, k) { NoneFailing(order, dest, e, k); }
    forall k ensures (k in p.dest <==> k in dest || (k in order && Places(dest, e, k)))
      ensures k in dest ==> p.dest[k] == dest[k]
    {
      PassDestination(s, order, e, done, k);
    }
    assert failing == [] <==> forall k :: k in e.source ==> Succeeds(dest, e, k) by {
      assert failing != [] ==> failing[0] in failing;
    }
    if NothingToDo(dest, e) {
      assert p.dest == dest;
      NothingCopied(order, dest, e);
      assert e.source.Keys <= dest.Keys;
    } else {
      var k :| k in e.source && !Confirms(dest, e, k);
      if Succeeds(dest, e, k) { assert k in p.dest && k !in dest; } else { assert k in failing; }
    }
  }

  lemma {:induction false} NothingCopied(order: seq<Key>, dest: Bucket, e: Env)
    requires forall k :: k in order ==> Confirms(dest, e, k)
    ensures CopiedBytes(order, dest, e) == 0
  {
    if order != [] {
      assert order[0] in order && forall k :: k in order[1..] ==> k in order;
      NothingCopied(order[1..], dest, e);
    }
  }

  /**
   * Exactly when two checkpoint files give the same outcome.  The load raises on a line that is JSON
   * but no object, or whose key is a non-empty list or object, and the run then dies with nothing
   * copied.  So the outcomes agree if and only if the run stops before the load anyway, or both files
   * load, or neither does, or there is nothing to copy, nothing fails and the final checks do not
   * pass, which is what dying early looks like.
   */
  lemma CheckpointIrrelevantIff(dest: Bucket, a: Log, b: Log, order: seq<Key>, e: Env, w: Surroundings)
    requires Enumerates(order, e.source.Keys)
    ensures SameOutcome(RunMigration(dest, a, order, e, w), RunMigration(dest, b, order, e, w)) <==>
      || StopsEarly(e, w) || (Loads(a) <==> Loads(b))
      || (NothingToDo(dest, e) && !FinalChecksPass(dest, e, w))
  {
    hide Loads, MigrateAll, NothingToDo, FinalChecksPass;
    if Loads(a) <==> Loads(b) {
      CheckpointIrrelevant(dest, a, b, order, e, w);
    } else if !StopsEarly(e, w) {
      if Loads(a) { LooksStoppedIff(dest, a, b, order, e, w); } else { LooksStoppedIff(dest, b, a, order, e, w); }
    }
  }

  /** A checkpoint file that changes the outcome: one line that is JSON but no object. */
  lemma RaisingLineStopsRun(k: Key, e: Env)
    requires e.source.Keys == {k} && e.expected(k) == None && e.calls(k) == RELIABLE
    ensures var w := Surroundings({k}, {k}, true, true, true, true); var bad: Log := File([Raising], true);
      && Enumerates([k], e.source.Keys)
      && RunMigration(map[], bad, [k], e, w) == (Progress(map[], bad, ZERO), 1)
      && RunMigration(map[], Empty(), [k], e, w).1 == 0
      && RunMigration(map[], Empty(), [k], e, w).0.dest == e.source
  {
    hide MigrateAll;
    var w := Surroundings({k}, {k}, true, true, true, true);
    var none: Log, bad: Log := Empty(), File([Raising], true);
    assert bad.lines[0].Raising?;
    assert Succeeds(map[], e, k);
    ExitZeroIff(map[], none, [k], e, w);
    ExitZeroMeansEqual(map[], none, [k], e, w);
  }

  ghost predicate Reliable(e: Env) {
    forall k :: e.calls(k) == RELIABLE
  }

  /**
   * Crash and resume.  A first run dies after any number of keys, with any calls failing on the way
   * (the last key may have been written or not), leaving any checkpoint file behind that loads.  A
   * rerun with working calls then reaches the same destination, fails the same keys and exits with
   * the same code as one uninterrupted run with working calls.
   */
  lemma CrashThenResume(dest: Bucket, before: Log, order: seq<Key>, n: nat, crashing: Env, e: Env,
                        done: set<Key>, left: Log, w: Surroundings)
    requires Enumerates(order, e.source.Keys) && n <= |order|
    requires crashing == e.(calls := crashing.calls) && Reliable(e)
    ensures var crashed := MigrateAll(Progress(dest, before, ZERO), order[..n], crashing, done);
      var (resumed, resumedExit) := RunMigration(crashed.dest, left, order, e, w);
      var (straight, straightExit) := RunMigration(dest, before, order, e, w);
      !StopsEarly(e, w) && Loads(before) && Loads(left) ==>
        && resumed.dest == straight.dest && resumedExit == straightExit
        && KeysOf(resumed.tally.failures) == KeysOf(straight.tally.failures)
  {
    var start := Progress(dest, before, ZERO);
    var crashed := MigrateAll(start, order[..n], crashing, done);
    var p := MigrateAll(Progress(crashed.dest, left, ZERO), order, e, Recorded(left.lines));
    var q := MigrateAll(start, order, e, Recorded(before.lines));
    PassTally(Progress(crashed.dest, left, ZERO), order, e, Recorded(left.lines));
    PassTally(start, order, e, Recorded(before.lines));
    forall k ensures (k in p.dest <==> k in q.dest) && (k in p.dest ==> p.dest[k] == q.dest[k])
      ensures k in order ==> (Succeeds(crashed.dest, e, k) <==> Succeeds(dest, e, k))
    {
      PassDestination(start, order[..n], crashing, done, k);
      PassDestination(Progress(crashed.dest, left, ZERO), order, e, Recorded(left.lines), k);
      PassDestination(start, order, e, Recorded(before.lines), k);
      assert k in order[..n] ==> k in order;
    }
    assert p.dest == q.dest;
    SameFates(order, crashed.dest, dest, e);
  }

  /** And what a crash leaves of a checkpoint does load, even when it fell into the middle of a line. */
  lemma CrashLeavesResumable(dest: Bucket, before: Log, order: seq<Key>, n: nat, e: Env, done: set<Key>, outcome: string,
                             left: Log)
    requires Enumerates(order, e.source.Keys) && n < |order| && Loads(before)
    requires LeftByCrash(MigrateAll(Progress(dest, before, ZERO), order[..n], e, done).checkpoint,
                         KeyLine(order[n], outcome), left)
    ensures Loads(left)
  {
    assert forall k :: k in order[..n] ==> k in order;
    PassKeepsReadable(Progress(dest, before, ZERO), order[..n], e, done);
    CrashLeavesReadable(MigrateAll(Progress(dest, before, ZERO), order[..n], e, done).checkpoint, KeyLine(order[n], outcome), left);
  }

  lemma {:induction false} SameFates(order: seq<Key>, a: Bucket, b: Bucket, e: Env)
    requires forall k :: k in order ==> (Succeeds(a, e, k) <==> Succeeds(b, e, k))
    ensures FailingKeys(order, a, e) == FailingKeys(order, b, e)
  {
    if order != [] {
      assert order[0] in order;
      SameFates(order[1..], a, b, e);
    }
  }

  // ---------------------------------------------------------------------------------------------
  // The script
  // ---------------------------------------------------------------------------------------------

  class MigrationRun {
    var dest: Bucket
    var checkpoint: Log
    var migrated: int
    var remigrated: int
    var identical: int
    var verified: int
    var failureCount: int
    var failures: seq<Failure>
    var bytes: int

    ghost function Snapshot(): Progress
      reads this
    {
      Progress(dest, checkpoint, Tally(migrated, remigrated, identical, verified, failureCount, failures, bytes))
    }

    constructor (dest: Bucket, checkpoint: Log)
      ensures Snapshot() == Progress(dest, checkpoint, Tally(0, 0, 0, 0, 0, [], 0))
    {
      this.dest, this.checkpoint := dest, checkpoint;
      migrated, remigrated, identical, verified, failureCount, failures, bytes := 0, 0, 0, 0, 0, [], 0;
    }

    method Migrate(k: Key, e: Env, was: bool)
      requires k in e.source
      modifies this
      ensures Snapshot() == MigrateKey(old(Snapshot()), k, e, was)
    {
      var c := e.calls(k);
      if !c.getSource { RecordFailure(k, SourceUnreadable); return; }
      var data := e.source[k];
      if e.expected(k).Some? {
        if e.sha(data) != e.expected(k).value { RecordFailure(k, SourceCorrupt); return; }
      }
      if !c.head { RecordFailure(k, HeadFailed); return; }
      if k in dest {
        if !c.getDest { RecordFailure(k, DestUnreadable); return; }
        if dest[k] == data {
          var outcome;
          if was {
            verified := verified + 1;
            outcome := "verified_via_checkpoint";
          } else {
            identical := identical + 1;
            outcome := "already_identical";
          }
          checkpoint := Append(checkpoint, KeyLine(k, outcome));
          return;
        }
        RecordFailure(k, DestDiffers);
        return;
      }
      if c.put != PutLost { dest := dest[k := data]; }
      if c.put != PutDone { RecordFailure(k, PutFailed); return; }
      if c.readback == ReadRaises { RecordFailure(k, ReadbackFailed); return; }
      if c.readback == ReadOther { RecordFailure(k, ReadbackDiffers); return; }
      bytes := bytes + |data|;
      var outcome;
      if was {
        remigrated := remigrated + 1;
        outcome := "remigrated_checkpoint_missing";
      } else {
        migrated := migrated + 1;
        outcome := "migrated";
      }
      checkpoint := Append(checkpoint, KeyLine(k, outcome));
    }

    method RecordFailure(k: Key, reason: Reason)
      modifies this`failureCount, this`failures
      ensures Snapshot() == Fail(old(Snapshot()), k, reason)
    {
      failureCount := failureCount + 1;
      failures := failures + [Failure(k, reason)];
    }

    method MigrateKeys(order: seq<Key>, e: Env, done: set<Key>)
      requires forall k :: k in order ==> k in e.source
      modifies this
      ensures Snapshot() == MigrateAll(old(Snapshot()), order, e, done)
    {
      var i := 0;
      while i < |order|
        invariant 0 <= i <= |order|
        invariant MigrateAll(Snapshot(), order[i..], e, done) == MigrateAll(old(Snapshot()), order, e, done)
      {
        assert order[i..][0] == order[i] && order[i..][1..] == order[i + 1..];
        Migrate(order[i], e, order[i] in done);
        i := i + 1;
      }
    }

    /** The listings that end a run, and its verdict; `listing` lists any key set completely. */
    method Reconcile(sourceInitial: set<Key>, w: Surroundings, listing: set<Key> -> seq<Page>) returns (exitCode: int)
      requires forall keys :: Lists(listing(keys), keys)
      ensures exitCode == Verdict(dest.Keys, failureCount, sourceInitial, w)
    {
      hide Lists, Listed;
      if !w.secondListing { return 1; }
      CompleteListing(listing(w.sourceFinal), w.sourceFinal);
      var sourceFinal := ListAllKeys(listing(w.sourceFinal));
      if !w.destListing { return 1; }
      CompleteListing(listing(dest.Keys), dest.Keys);
      var destKeys := ListAllKeys(listing(dest.Keys));
      var missing, extra := sourceFinal - destKeys, destKeys - sourceFinal;
      EmptyDifference(sourceFinal, destKeys);
      EmptyDifference(destKeys, sourceFinal);
      exitCode := if failureCount == 0 && sourceFinal == sourceInitial && missing == {} && extra == {} then 0 else 1;
    }

    method Run(order: seq<Key>, e: Env, w: Surroundings, listing: set<Key> -> seq<Page>) returns (exitCode: int)
      requires Enumerates(order, e.source.Keys)
      requires forall keys :: Lists(listing(keys), keys)
      requires Snapshot().tally == ZERO
      modifies this
      ensures (Snapshot(), exitCode) == RunMigration(old(dest), old(checkpoint), order, e, w)
    {
      hide Lists, Listed, MigrateAll, Recorded, Verdict, Loads;
      if !w.firstListing { return 1; }
      CompleteListing(listing(e.source.Keys), e.source.Keys);
      var sourceInitial := ListAllKeys(listing(e.source.Keys));
      if !w.database { return 1; }
      EmptyDifference(w.referenced, sourceInitial);
      if w.referenced - sourceInitial != {} { return 1; }
      var done := LoadCheckpoint(checkpoint);
      if done.Err? { return 1; }
      MigrateKeys(order, e, done.value);
      exitCode := Reconcile(sourceInitial, w, listing);
    }
  }
}
