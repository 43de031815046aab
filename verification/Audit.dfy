/** The append-only audit log (core/audit.py): its two indexes and the paged activity listing. */
module Audit {
  import opened Common
  import opened Sorting

  /** One event.  Its `audit_event_id` is its position in the log. */
  datatype Event = Event(
    eventType: string,
    occurredAt: Time,
    actorType: string,
    actorId: string,
    subjectType: string,
    subjectId: Id,
    correlationId: string,
    causationId: Option<Id>,
    payload: map<string, Datum>)

  function HasCorrelation(correlationId: string): Event -> bool {
    (e: Event) => e.correlationId == correlationId
  }

  function HasSubject(subject: (string, Id)): Event -> bool {
    (e: Event) => (e.subjectType, e.subjectId) == subject
  }

  /** The log filtered in insertion order. */
  function Filter(events: seq<Event>, p: Event -> bool): seq<Event> {
    if events == [] then []
    else Filter(events[..|events| - 1], p) + (if p(events[|events| - 1]) then [events[|events| - 1]] else [])
  }

  /** The identifiers of the events that `Filter` keeps. */
  function Matching(events: seq<Event>, p: Event -> bool): (ids: seq<Id>)
    ensures forall i :: 0 <= i < |ids| ==> ids[i] < |events|
  {
    if events == [] then []
    else Matching(events[..|events| - 1], p) + (if p(events[|events| - 1]) then [|events| - 1] else [])
  }

  function Pick(events: seq<Event>, ids: seq<Id>): seq<Event>
    requires forall i :: 0 <= i < |ids| ==> ids[i] < |events|
  {
    seq(|ids|, i requires 0 <= i < |ids| => events[ids[i]])
  }

  lemma {:induction false} PickMatching(events: seq<Event>, p: Event -> bool)
    ensures Pick(events, Matching(events, p)) == Filter(events, p)
  {
    if events != [] {
      PickMatching(events[..|events| - 1], p);
    }
  }

  function Entry<K>(index: map<K, seq<Id>>, key: K): seq<Id> {
    if key in index then index[key] else []
  }

  // ---------------------------------------------------------------------------------------------
  // list_recent
  // ---------------------------------------------------------------------------------------------

  predicate Eligible(e: Event, before: Option<Time>, prefix: Option<string>) {
    && (before.Some? ==> e.occurredAt < before.value)
    && (prefix.Some? ==> prefix.value <= e.eventType)
  }

  function EligibleIds(events: seq<Event>, before: Option<Time>, prefix: Option<string>): (ids: seq<Id>)
    ensures forall id: Id :: id in ids <==> id < |events| && Eligible(events[id], before, prefix)
    ensures forall i :: 0 <= i < |ids| ==> ids[i] < |events|
    ensures forall i, j :: 0 <= i < j < |ids| ==> ids[i] < ids[j]
  {
    if events == [] then []
    else
      var n := |events| - 1;
      EligibleIds(events[..n], before, prefix) + (if Eligible(events[n], before, prefix) then [n] else [])
  }

  function KeyAt(events: seq<Event>, id: Id): Key {
    Key(if id < |events| then events[id].occurredAt else 0, id)
  }

  function ByTime(events: seq<Event>): Id -> Key {
    (id: Id) => KeyAt(events, id)
  }

  function Reverse<T>(s: seq<T>): seq<T> {
    seq(|s|, i requires 0 <= i < |s| => s[|s| - 1 - i])
  }

  function Recent(events: seq<Event>, limit: int, before: Option<Time>, prefix: Option<string>): seq<Id> {
    Take(Ranked(events, before, prefix), limit)
  }

  /** `a` is listed before `b`: newer first, later identifiers first among equal times. */
  predicate Newer(events: seq<Event>, a: Id, b: Id) {
    Less(KeyAt(events, b), KeyAt(events, a))
  }

  ghost predicate Descending(events: seq<Event>, ids: seq<Id>) {
    forall i, j :: 0 <= i < j < |ids| ==> Newer(events, ids[i], ids[j])
  }

  /** The whole eligible log, newest first. */
  function Ranked(events: seq<Event>, before: Option<Time>, prefix: Option<string>): seq<Id> {
    Reverse(Sort(EligibleIds(events, before, prefix), ByTime(events)))
  }

  lemma RankedDescends(events: seq<Event>, before: Option<Time>, prefix: Option<string>)
    ensures Descending(events, Ranked(events, before, prefix))
    ensures |Ranked(events, before, prefix)| == |EligibleIds(events, before, prefix)|
    ensures forall id: Id :: id in Ranked(events, before, prefix) <==> id in EligibleIds(events, before, prefix)
  {
    hide EligibleIds, Eligible, Sort;
    var all, key := EligibleIds(events, before, prefix), ByTime(events);
    var sorted := Sort(all, key);
    SortStrictlyAscends(all, key);
    SortKeepsElements(all, key);
    forall id: Id ensures id in Reverse(sorted) <==> id in all {
      if id in sorted {
        var i :| 0 <= i < |sorted| && sorted[i] == id;
        assert Reverse(sorted)[|sorted| - 1 - i] == id;
      }
    }
  }

  lemma PageIsNewest(events: seq<Event>, limit: int, before: Option<Time>, prefix: Option<string>)
    requires limit >= 0
    ensures var page, all := Recent(events, limit, before, prefix), EligibleIds(events, before, prefix);
      && Descending(events, page)
      && |page| == (if limit < |all| then limit else |all|)
      && (forall id :: id in page ==> id in all)
      && (forall id, p :: id in all && id !in page && p in page ==> Newer(events, p, id))
  {
    RankedDescends(events, before, prefix);
    var ranked := Ranked(events, before, prefix);
    var page := Recent(events, limit, before, prefix);
    assert page == ranked[..|page|];
    forall id, p | id in ranked && id !in page && p in page ensures Newer(events, p, id) {
      NewestBeforeRest(events, ranked, |page|, p, id);
    }
  }

  lemma NewestBeforeRest(events: seq<Event>, ranked: seq<Id>, n: nat, a: Id, b: Id)
    requires Descending(events, ranked) && n <= |ranked|
    requires a in ranked[..n] && b in ranked && b !in ranked[..n]
    ensures Newer(events, a, b)
  {
    var i :| 0 <= i < n && ranked[i] == a;
    var j :| 0 <= j < |ranked| && ranked[j] == b;
    assert forall k :: 0 <= k < n ==> ranked[k] in ranked[..n];
  }

  ghost function EligibleSet(events: seq<Event>, before: Option<Time>, prefix: Option<string>): set<Id> {
    set id | id in EligibleIds(events, before, prefix)
  }

  function Last<T>(s: seq<T>): T
    requires s != []
  {
    s[|s| - 1]
  }

  /** The cursor a client passes to fetch the page after `page`. */
  function Cursor(events: seq<Event>, page: seq<Id>): (c: Option<Time>)
    requires page != [] && Last(page) < |events|
  {
    Some(events[Last(page)].occurredAt)
  }

  /** A page is empty exactly when nothing is eligible, and its cursor shrinks the eligible set. */
  lemma CursorAdvances(events: seq<Event>, limit: int, before: Option<Time>, prefix: Option<string>)
    requires limit >= 1
    ensures var page := Recent(events, limit, before, prefix);
      && (page == [] <==> EligibleSet(events, before, prefix) == {})
      && (page != [] ==> Last(page) < |events|)
      && (page != [] ==> EligibleSet(events, Cursor(events, page), prefix) < EligibleSet(events, before, prefix))
  {
    PageIsNewest(events, limit, before, prefix);
    var page := Recent(events, limit, before, prefix);
    var all := EligibleIds(events, before, prefix);
    if page == [] {
      assert all == [];
    } else {
      assert Last(page) in all;
      assert Last(page) in EligibleSet(events, before, prefix);
      assert Last(page) !in EligibleSet(events, Cursor(events, page), prefix);
    }
  }

  /** All pages a client reads by following `before` = last `occurred_at` until a page is empty. */
  ghost function Pages(events: seq<Event>, limit: int, before: Option<Time>, prefix: Option<string>): seq<seq<Id>>
    requires limit >= 1
    decreases EligibleSet(events, before, prefix)
  {
    CursorAdvances(events, limit, before, prefix);
    var page := Recent(events, limit, before, prefix);
    if page == [] then [] else [page] + Pages(events, limit, Cursor(events, page), prefix)
  }

  ghost function Flatten(pages: seq<seq<Id>>): seq<Id> {
    if pages == [] then [] else pages[0] + Flatten(pages[1..])
  }

  /** Event `id` is passed over: it ties with the last event of a page and is listed after it. */
  ghost predicate TiedAfterPage(events: seq<Event>, pages: seq<seq<Id>>, id: Id) {
    exists k :: 0 <= k < |pages| && PassedOver(events, pages[k], id)
  }

  ghost predicate PassedOver(events: seq<Event>, page: seq<Id>, id: Id) {
    && page != [] && Last(page) < |events| && id < |events|
    && events[id].occurredAt == events[Last(page)].occurredAt && id < Last(page)
  }

  lemma {:induction false} PagesHoldEligible(events: seq<Event>, limit: int, before: Option<Time>, prefix: Option<string>)
    requires limit >= 1
    ensures forall id :: id in Flatten(Pages(events, limit, before, prefix)) ==>
              id in EligibleIds(events, before, prefix)
    decreases EligibleSet(events, before, prefix)
  {
    CursorAdvances(events, limit, before, prefix);
    PageIsNewest(events, limit, before, prefix);
    var page := Recent(events, limit, before, prefix);
    if page != [] {
      var cursor := Cursor(events, page);
      PagesHoldEligible(events, limit, cursor, prefix);
      assert Pages(events, limit, before, prefix)[1..] == Pages(events, limit, cursor, prefix);
      forall id | id in EligibleIds(events, cursor, prefix) ensures id in EligibleIds(events, before, prefix) {
        assert id in EligibleSet(events, cursor, prefix);
      }
    }
  }

  lemma {:induction false} PagesAreDescending(events: seq<Event>, limit: int, before: Option<Time>, prefix: Option<string>)
    requires limit >= 1
    ensures Descending(events, Flatten(Pages(events, limit, before, prefix)))
    decreases EligibleSet(events, before, prefix)
  {
    CursorAdvances(events, limit, before, prefix);
    PageIsNewest(events, limit, before, prefix);
    var page := Recent(events, limit, before, prefix);
    if page != [] {
      var cursor := Cursor(events, page);
      PagesAreDescending(events, limit, cursor, prefix);
      PagesHoldEligible(events, limit, cursor, prefix);
      var rest := Flatten(Pages(events, limit, cursor, prefix));
      assert Pages(events, limit, before, prefix)[1..] == Pages(events, limit, cursor, prefix);
      forall i, j | 0 <= i < |page| && 0 <= j < |rest| ensures Newer(events, page[i], rest[j]) {
        assert rest[j] in rest;
        RestIsOlder(events, page, rest[j]);
      }
    }
  }

  /**
   * Following the cursor misses an eligible event exactly when the event ties with the last event
   * of some page and is listed after it.
   */
  lemma {:induction false} PagesCoverLog(events: seq<Event>, limit: int, before: Option<Time>, prefix: Option<string>,
                                         id: Id)
    requires limit >= 1 && id in EligibleIds(events, before, prefix)
    ensures id !in Flatten(Pages(events, limit, before, prefix)) <==>
            TiedAfterPage(events, Pages(events, limit, before, prefix), id)
    decreases EligibleSet(events, before, prefix)
  {
    hide Recent, TiedAfterPage, EligibleIds;
    CursorAdvances(events, limit, before, prefix);
    PageIsNewest(events, limit, before, prefix);
    var page := Recent(events, limit, before, prefix);
    var pages := Pages(events, limit, before, prefix);
    assert id in EligibleSet(events, before, prefix);
    var cursor := Cursor(events, page);
    var rest := Pages(events, limit, cursor, prefix);
    assert pages[0] == page && pages[1..] == rest;
    TiedStep(events, pages, id);
    PagesHoldEligible(events, limit, cursor, prefix);
    if events[id].occurredAt < cursor.value {
      PagesCoverLog(events, limit, cursor, prefix, id);
      RestIsOlder(events, page, id);
    } else {
      NotTiedInRest(events, rest, cursor, prefix, id);
      if id in page {
        var i :| 0 <= i < |page| && page[i] == id;
        assert i < |page| - 1 ==> Newer(events, page[i], Last(page));
      } else {
        assert Newer(events, Last(page), id);
      }
    }
  }

  lemma RestIsOlder(events: seq<Event>, page: seq<Id>, id: Id)
    requires page != [] && Descending(events, page) && Last(page) < |events| && id < |events|
    requires events[id].occurredAt < events[Last(page)].occurredAt
    ensures id !in page && forall p :: p in page ==> Newer(events, p, id)
  {
    forall p | p in page ensures Newer(events, p, id) {
      var i :| 0 <= i < |page| && page[i] == p;
      assert i < |page| - 1 ==> Newer(events, page[i], Last(page));
    }
  }

  lemma TiedStep(events: seq<Event>, pages: seq<seq<Id>>, id: Id)
    requires pages != []
    ensures TiedAfterPage(events, pages, id) <==>
            PassedOver(events, pages[0], id) || TiedAfterPage(events, pages[1..], id)
  {
    if TiedAfterPage(events, pages, id) {
      var k :| 0 <= k < |pages| && PassedOver(events, pages[k], id);
      assert k > 0 ==> pages[k] == pages[1..][k - 1];
    }
    if TiedAfterPage(events, pages[1..], id) {
      var k :| 0 <= k < |pages| - 1 && PassedOver(events, pages[1..][k], id);
      assert PassedOver(events, pages[k + 1], id);
    }
  }

  /** Later pages hold strictly older times, so they never tie with an event at or after the cursor. */
  lemma {:induction false} NotTiedInRest(events: seq<Event>, rest: seq<seq<Id>>, cursor: Option<Time>,
                                         prefix: Option<string>, id: Id)
    requires cursor.Some? && id < |events| && events[id].occurredAt >= cursor.value
    requires forall x :: x in Flatten(rest) ==> x in EligibleIds(events, cursor, prefix)
    ensures !TiedAfterPage(events, rest, id)
  {
    if rest != [] {
      NotTiedInRest(events, rest[1..], cursor, prefix, id);
      TiedStep(events, rest, id);
      if rest[0] != [] { assert Last(rest[0]) in Flatten(rest); }
    }
  }

  /** The events that a listing may hold: earlier than the cursor, of a type with the given prefix. */
  ghost function Listable(events: seq<Event>, before: Option<Time>, prefix: Option<string>): (ids: set<Id>)
    ensures forall id: Id :: id in ids <==>
      && id < |events| && (before.Some? ==> events[id].occurredAt < before.value)
      && (prefix.Some? ==> prefix.value <= events[id].eventType)
  {
    EligibleSet(events, before, prefix)
  }

  /**
   * A page holds the newest of the n listable events, as many as the slice `[:limit]` keeps, strictly
   * descending by time and, at equal times, by identifier.
   */
  lemma PageHoldsNewest(events: seq<Event>, limit: int, before: Option<Time>, prefix: Option<string>)
    ensures var page, all := Recent(events, limit, before, prefix), Listable(events, before, prefix);
      && |page| == (if limit >= |all| then |all| else if limit >= 0 then limit else if |all| + limit >= 0 then |all| + limit else 0)
      && (forall i :: 0 <= i < |page| ==> page[i] in all && page[i] < |events|)
      && (forall i, j :: 0 <= i < j < |page| ==>
            || events[page[i]].occurredAt > events[page[j]].occurredAt
            || (events[page[i]].occurredAt == events[page[j]].occurredAt && page[i] > page[j]))
      && (forall i, id :: 0 <= i < |page| && id in all && id !in page ==>
            || events[page[i]].occurredAt > events[id].occurredAt
            || (events[page[i]].occurredAt == events[id].occurredAt && page[i] > id))
  {
    hide Eligible, EligibleIds, Ranked, Recent, Take;
    var ids, ranked := EligibleIds(events, before, prefix), Ranked(events, before, prefix);
    RankedDescends(events, before, prefix);
    DistinctCount(ids);
    assert Elements(ids) == Listable(events, before, prefix);
    PageIsPrefix(events, limit, before, prefix);
    var page := Recent(events, limit, before, prefix);
    forall i | 0 <= i < |page| ensures page[i] in ranked { assert page[i] == ranked[i]; }
    forall i, j | 0 <= i < j < |page| ensures Newer(events, page[i], page[j]) {
      assert page[i] == ranked[i] && page[j] == ranked[j];
    }
    forall i, id | 0 <= i < |page| && id in ids && id !in page ensures Newer(events, page[i], id) {
      assert page[i] in page;
      NewestBeforeRest(events, ranked, |page|, page[i], id);
    }
  }

  lemma PageIsPrefix(events: seq<Event>, limit: int, before: Option<Time>, prefix: Option<string>)
    ensures var page, ranked := Recent(events, limit, before, prefix), Ranked(events, before, prefix); var n := |ranked|;
      && |page| == (if limit >= n then n else if limit >= 0 then limit else if n + limit >= 0 then n + limit else 0)
      && page == ranked[..|page|]
  {
    hide Ranked;
  }

  /** No page ever holds an event of another type or at or after the first cursor. */
  lemma PagesAreEligible(events: seq<Event>, limit: int, before: Option<Time>, prefix: Option<string>, id: Id)
    requires limit >= 1 && id in Flatten(Pages(events, limit, before, prefix))
    ensures id < |events| && (before.Some? ==> events[id].occurredAt < before.value)
    ensures prefix.Some? ==> prefix.value <= events[id].eventType
  {
    PagesHoldEligible(events, limit, before, prefix);
  }

  /** Across all pages the listing is strictly descending by time and identifier, so the pages are disjoint. */
  lemma PagesDescend(events: seq<Event>, limit: int, before: Option<Time>, prefix: Option<string>, i: nat, j: nat)
    requires limit >= 1 && i < j < |Flatten(Pages(events, limit, before, prefix))|
    ensures var all := Flatten(Pages(events, limit, before, prefix));
      && all[i] < |events| && all[j] < |events|
      && (events[all[i]].occurredAt > events[all[j]].occurredAt
          || (events[all[i]].occurredAt == events[all[j]].occurredAt && all[i] > all[j]))
  {
    hide Pages;
    var all := Flatten(Pages(events, limit, before, prefix));
    PagesAreDescending(events, limit, before, prefix);
    PagesHoldEligible(events, limit, before, prefix);
    assert all[i] in all && all[j] in all && Newer(events, all[i], all[j]);
  }

  // ---------------------------------------------------------------------------------------------
  // Paging while the log is still being written to
  // ---------------------------------------------------------------------------------------------

  /** The log at fetch number k, when `batch(i)` is appended between the fetches i and i + 1. */
  ghost function LogAt(events: seq<Event>, batch: nat -> seq<Event>, k: nat): seq<Event> {
    if k == 0 then events else LogAt(events, batch, k - 1) + batch(k - 1)
  }

  ghost predicate NotBefore(events: seq<Event>, time: Time) {
    forall e :: e in events ==> e.occurredAt >= time
  }

  /** Events that are not older than the cursor do not change what is eligible below it. */
  lemma {:induction false} NewerEventsIneligible(events: seq<Event>, more: seq<Event>, cursor: Time, prefix: Option<string>)
    requires NotBefore(more, cursor)
    ensures EligibleIds(events + more, Some(cursor), prefix) == EligibleIds(events, Some(cursor), prefix)
    decreases |more|
  {
    if more == [] {
      assert events + more == events;
    } else {
      var n := |more| - 1;
      assert (events + more)[..|events + more| - 1] == events + more[..n];
      assert more[n] in more && forall e :: e in more[..n] ==> e in more;
      NewerEventsIneligible(events, more[..n], cursor, prefix);
    }
  }

  lemma {:induction false} SortSameKeys(ids: seq<Id>, a: Id -> Key, b: Id -> Key)
    requires forall id :: id in ids ==> a(id) == b(id)
    ensures Sort(ids, a) == Sort(ids, b)
  {
    if ids != [] {
      assert forall id :: id in ids[1..] ==> id in ids;
      assert ids[0] in ids;
      SortSameKeys(ids[1..], a, b);
      SortKeepsElements(ids[1..], a);
      InsertSameKeys(ids[0], Sort(ids[1..], a), a, b);
    }
  }

  lemma {:induction false} InsertSameKeys(x: Id, s: seq<Id>, a: Id -> Key, b: Id -> Key)
    requires a(x) == b(x) && forall id :: id in s ==> a(id) == b(id)
    ensures Insert(x, s, a) == Insert(x, s, b)
  {
    if s != [] {
      assert s[0] in s && forall id :: id in s[1..] ==> id in s;
      InsertSameKeys(x, s[1..], a, b);
    }
  }

  /** So a page below the cursor is the same page, however much newer events the log has gained. */
  lemma PageUnaffected(events: seq<Event>, more: seq<Event>, limit: int, cursor: Time, prefix: Option<string>)
    requires NotBefore(more, cursor)
    ensures Recent(events + more, limit, Some(cursor), prefix) == Recent(events, limit, Some(cursor), prefix)
  {
    NewerEventsIneligible(events, more, cursor, prefix);
    var ids := EligibleIds(events, Some(cursor), prefix);
    assert forall id: Id :: id in ids ==> ByTime(events + more)(id) == ByTime(events)(id);
    SortSameKeys(ids, ByTime(events + more), ByTime(events));
  }

  /** The first pages that a client reads when fetch number k sees the log as it is then. */
  ghost function GrowingPages(events: seq<Event>, batch: nat -> seq<Event>, k: nat, limit: int, before: Option<Time>,
                              prefix: Option<string>, fetches: nat): seq<seq<Id>>
    decreases fetches
  {
    var log := LogAt(events, batch, k);
    var page := Recent(log, limit, before, prefix);
    if fetches == 0 || page == [] || Last(page) >= |log| then []
    else [page] + GrowingPages(events, batch, k + 1, limit, Cursor(log, page), prefix, fetches - 1)
  }

  lemma {:induction false} LogGrows(events: seq<Event>, batch: nat -> seq<Event>, k: nat, cursor: Time)
    requires forall i: nat :: NotBefore(batch(i), cursor)
    ensures exists more :: NotBefore(more, cursor) && LogAt(events, batch, k) == events + more
  {
    if k == 0 {
      assert NotBefore([], cursor) && events == events + [];
    } else {
      LogGrows(events, batch, k - 1, cursor);
      var more :| NotBefore(more, cursor) && LogAt(events, batch, k - 1) == events + more;
      assert NotBefore(batch(k - 1), cursor);
      assert NotBefore(more + batch(k - 1), cursor);
      assert LogAt(events, batch, k) == events + (more + batch(k - 1));
    }
  }

  lemma TakeOneMore<T>(x: T, s: seq<T>, n: nat)
    requires n > 0
    ensures Take([x] + s, n) == [x] + Take(s, n - 1)
  {}

  /** What a fetch below a cursor sees of the grown log: the same page, in range, with the same next cursor. */
  lemma FetchUnaffected(events: seq<Event>, batch: nat -> seq<Event>, k: nat, limit: int, cursor: Time, first: Time,
                        prefix: Option<string>)
    requires limit >= 1 && cursor <= first && forall i: nat :: NotBefore(batch(i), first)
    ensures var log := LogAt(events, batch, k); var page := Recent(events, limit, Some(cursor), prefix);
      && Recent(log, limit, Some(cursor), prefix) == page
      && (page != [] ==> Last(page) < |events| <= |log| && Cursor(log, page) == Cursor(events, page)
                         && Cursor(events, page).value <= cursor)
  {
    hide Recent, EligibleIds;
    LogGrows(events, batch, k, first);
    var more :| NotBefore(more, first) && LogAt(events, batch, k) == events + more;
    assert NotBefore(more, cursor);
    PageUnaffected(events, more, limit, cursor, prefix);
    PageIsNewest(events, limit, Some(cursor), prefix);
    var page := Recent(events, limit, Some(cursor), prefix);
    if page != [] {
      assert Last(page) in page;
      LastIsEligible(events, Some(cursor), prefix, Last(page));
    }
  }

  lemma LastIsEligible(events: seq<Event>, before: Option<Time>, prefix: Option<string>, id: Id)
    requires id in EligibleIds(events, before, prefix)
    ensures id < |events| && Eligible(events[id], before, prefix)
  {}

  lemma {:induction false} LaterPagesUnaffected(events: seq<Event>, batch: nat -> seq<Event>, k: nat, limit: int,
                                                cursor: Time, first: Time, prefix: Option<string>, fetches: nat)
    requires limit >= 1 && cursor <= first && forall i: nat :: NotBefore(batch(i), first)
    ensures GrowingPages(events, batch, k, limit, Some(cursor), prefix, fetches) ==
            Take(Pages(events, limit, Some(cursor), prefix), fetches)
    decreases fetches
  {
    hide Recent, LogAt, NotBefore, EligibleSet, Take;
    var page := Recent(events, limit, Some(cursor), prefix);
    if fetches == 0 {
      TakeNone(Pages(events, limit, Some(cursor), prefix));
    } else {
      FetchUnaffected(events, batch, k, limit, cursor, first, prefix);
      if page == [] {
        TakeNothing<seq<Id>>(fetches);
      } else {
        var next := Cursor(events, page);
        LaterPagesUnaffected(events, batch, k + 1, limit, next.value, first, prefix, fetches - 1);
        TakeOneMore(page, Pages(events, limit, next, prefix), fetches);
      }
    }
  }

  lemma TakeNone<T>(s: seq<T>)
    ensures Take(s, 0) == []
  {}

  lemma TakeNothing<T>(n: int)
    ensures Take<T>([], n) == []
  {}

  /**
   * The reason for a time cursor: while the stream is still being written to, a client that follows
   * it reads, page by page, exactly the pages of the log as it was at the first fetch, provided that
   * no later event is older than the first cursor.  So the theorems about a fixed log apply.
   */
  lemma PagingSurvivesWrites(events: seq<Event>, batch: nat -> seq<Event>, limit: int, prefix: Option<string>, fetches: nat)
    requires limit >= 1
    requires var page := Recent(events, limit, None, prefix);
      page != [] && Last(page) < |events| ==> forall i: nat :: NotBefore(batch(i), events[Last(page)].occurredAt)
    ensures GrowingPages(events, batch, 0, limit, None, prefix, fetches) == Take(Pages(events, limit, None, prefix), fetches)
  {
    hide Recent, NotBefore, EligibleSet, Take;
    CursorAdvances(events, limit, None, prefix);
    var page := Recent(events, limit, None, prefix);
    if fetches == 0 {
      TakeNone(Pages(events, limit, None, prefix));
    } else if page == [] {
      TakeNothing<seq<Id>>(fetches);
    } else {
      var next := Cursor(events, page);
      LaterPagesUnaffected(events, batch, 1, limit, next.value, next.value, prefix, fetches - 1);
      TakeOneMore(page, Pages(events, limit, next, prefix), fetches);
    }
  }

  ghost predicate DistinctTimes(events: seq<Event>) {
    forall i, j :: 0 <= i < j < |events| ==> events[i].occurredAt != events[j].occurredAt
  }

  /** With distinct timestamps the pages list every eligible event, each exactly once. */
  lemma DistinctTimesListedOnce(events: seq<Event>, limit: int, prefix: Option<string>, id: Id)
    requires limit >= 1 && DistinctTimes(events)
    requires id < |events| && (prefix.Some? ==> prefix.value <= events[id].eventType)
    ensures multiset(Flatten(Pages(events, limit, None, prefix)))[id] == 1
  {
    PagesCoverLog(events, limit, None, prefix, id);
    PagesAreDescending(events, limit, None, prefix);
    var flat := Flatten(Pages(events, limit, None, prefix));
    assert !TiedAfterPage(events, Pages(events, limit, None, prefix), id);
    assert id in flat;
    DescendingListsOnce(events, flat, id);
  }

  lemma {:induction false} DescendingListsOnce(events: seq<Event>, ids: seq<Id>, id: Id)
    requires Descending(events, ids) && id in ids
    ensures multiset(ids)[id] == 1
  {
    assert ids == [ids[0]] + ids[1..];
    if ids[0] == id {
      assert forall j :: 0 < j < |ids| ==> Newer(events, ids[0], ids[j]);
      assert id !in multiset(ids[1..]);
    } else {
      DescendingListsOnce(events, ids[1..], id);
    }
  }

  // ---------------------------------------------------------------------------------------------
  // The passes of list_recent
  // ---------------------------------------------------------------------------------------------

  /** `list(self._by_id.values())`, as identifiers. */
  function AllIds(n: nat): (ids: seq<Id>)
    ensures |ids| == n && forall i :: 0 <= i < n ==> ids[i] == i
  {
    seq(n, i requires 0 <= i < n => i)
  }

  predicate Keeps(events: seq<Event>, id: Id, before: Option<Time>, prefix: Option<string>) {
    id < |events| && Eligible(events[id], before, prefix)
  }

  /** The identifiers whose events are eligible, in order. */
  function Kept(events: seq<Event>, ids: seq<Id>, before: Option<Time>, prefix: Option<string>): seq<Id> {
    if ids == [] then []
    else
      var front := Kept(events, ids[..|ids| - 1], before, prefix);
      if Keeps(events, ids[|ids| - 1], before, prefix) then front + [ids[|ids| - 1]] else front
  }

  lemma KeptStep(events: seq<Event>, ids: seq<Id>, id: Id, before: Option<Time>, prefix: Option<string>)
    ensures Kept(events, ids + [id], before, prefix) ==
            if Keeps(events, id, before, prefix) then Kept(events, ids, before, prefix) + [id] else Kept(events, ids, before, prefix)
  {
    hide Keeps;
    assert (ids + [id])[..|ids|] == ids;
  }

  method KeepBefore(events: seq<Event>, ids: seq<Id>, before: Time) returns (kept: seq<Id>)
    requires forall i :: 0 <= i < |ids| ==> ids[i] < |events|
    ensures kept == Kept(events, ids, Some(before), None)
    ensures forall i :: 0 <= i < |kept| ==> kept[i] < |events|
  {
    kept := [];
    for i := 0 to |ids|
      invariant kept == Kept(events, ids[..i], Some(before), None)
      invariant forall j :: 0 <= j < |kept| ==> kept[j] < |events|
    {
      KeptStep(events, ids[..i], ids[i], Some(before), None);
      assert ids[..i + 1] == ids[..i] + [ids[i]];
      if events[ids[i]].occurredAt < before { kept := kept + [ids[i]]; }
    }
    assert ids[..|ids|] == ids;
  }

  method KeepPrefix(events: seq<Event>, ids: seq<Id>, prefix: string) returns (kept: seq<Id>)
    requires forall i :: 0 <= i < |ids| ==> ids[i] < |events|
    ensures kept == Kept(events, ids, None, Some(prefix))
  {
    kept := [];
    for i := 0 to |ids|
      invariant kept == Kept(events, ids[..i], None, Some(prefix))
    {
      KeptStep(events, ids[..i], ids[i], None, Some(prefix));
      assert ids[..i + 1] == ids[..i] + [ids[i]];
      if prefix <= events[ids[i]].eventType { kept := kept + [ids[i]]; }
    }
    assert ids[..|ids|] == ids;
  }

  method Reversed<T>(s: seq<T>) returns (r: seq<T>)
    ensures r == Reverse(s)
  {
    r := [];
    for i := 0 to |s|
      invariant |r| == i && forall j :: 0 <= j < i ==> r[j] == s[i - 1 - j]
    {
      r := [s[i]] + r;
    }
  }

  lemma KeepsTwice(events: seq<Event>, id: Id, before: Option<Time>, prefix: Option<string>)
    ensures Keeps(events, id, before, prefix) <==> Keeps(events, id, before, None) && Keeps(events, id, None, prefix)
  {}

  lemma {:induction false} KeptTwice(events: seq<Event>, ids: seq<Id>, before: Option<Time>, prefix: Option<string>)
    ensures Kept(events, Kept(events, ids, before, None), None, prefix) == Kept(events, ids, before, prefix)
  {
    hide Keeps;
    if ids != [] {
      hide Kept;
      var front, id := ids[..|ids| - 1], ids[|ids| - 1];
      KeptTwice(events, front, before, prefix);
      KeepsTwice(events, id, before, prefix);
      assert ids == front + [id];
      KeptStep(events, front, id, before, None);
      KeptStep(events, front, id, before, prefix);
      KeptStep(events, Kept(events, front, before, None), id, None, prefix);
    }
  }

  /** Only the events below n matter for the first n identifiers. */
  lemma {:induction false} KeptOfShorter(events: seq<Event>, n: nat, ids: seq<Id>, before: Option<Time>, prefix: Option<string>)
    requires n <= |events| && forall i :: 0 <= i < |ids| ==> ids[i] < n
    ensures Kept(events[..n], ids, before, prefix) == Kept(events, ids, before, prefix)
  {
    if ids != [] { KeptOfShorter(events, n, ids[..|ids| - 1], before, prefix); }
  }

  lemma AllIdsStep(n: nat)
    ensures AllIds(n + 1) == AllIds(n) + [n]
  {}

  lemma KeepsLast(events: seq<Event>, before: Option<Time>, prefix: Option<string>)
    requires events != []
    ensures var n := |events| - 1;
      EligibleIds(events, before, prefix) ==
      if Keeps(events, n, before, prefix) then EligibleIds(events[..n], before, prefix) + [n]
      else EligibleIds(events[..n], before, prefix)
  {
    hide Eligible;
  }

  /** Filtering all identifiers gives the eligible ones in log order. */
  lemma {:induction false} KeptIsEligible(events: seq<Event>, before: Option<Time>, prefix: Option<string>)
    ensures Kept(events, AllIds(|events|), before, prefix) == EligibleIds(events, before, prefix)
  {
    if events != [] {
      hide Kept, Keeps, Eligible, AllIds;
      var n := |events| - 1;
      KeptIsEligible(events[..n], before, prefix);
      AllIdsStep(n);
      KeptStep(events, AllIds(n), n, before, prefix);
      KeptOfShorter(events, n, AllIds(n), before, prefix);
      KeepsLast(events, before, prefix);
    }
  }

  /** The optional passes, one after the other, keep exactly the eligible events. */
  lemma TwoFilters(events: seq<Event>, before: Option<Time>, prefix: Option<string>)
    ensures var all := AllIds(|events|);
      var first := if before.Some? then Kept(events, all, before, None) else all;
      (if prefix.Some? then Kept(events, first, None, prefix) else first) == EligibleIds(events, before, prefix)
  {
    var all := AllIds(|events|);
    KeptIsEligible(events, before, prefix);
    KeptTwice(events, all, before, prefix);
    KeptAll(events, all);
    if prefix.None? { KeptIsEligible(events, before, None); }
  }

  lemma {:induction false} KeptAll(events: seq<Event>, ids: seq<Id>)
    requires forall i :: 0 <= i < |ids| ==> ids[i] < |events|
    ensures Kept(events, ids, None, None) == ids
  {
    if ids != [] { KeptAll(events, ids[..|ids| - 1]); }
  }

  // ---------------------------------------------------------------------------------------------
  // The repository
  // ---------------------------------------------------------------------------------------------

  ghost predicate CorrelationIndex(events: seq<Event>, index: map<string, seq<Id>>) {
    forall c: string :: Entry(index, c) == Matching(events, HasCorrelation(c))
  }

  ghost predicate SubjectIndex(events: seq<Event>, index: map<(string, Id), seq<Id>>) {
    forall s: (string, Id) :: Entry(index, s) == Matching(events, HasSubject(s))
  }

  function Extend<K>(index: map<K, seq<Id>>, key: K, id: Id): map<K, seq<Id>> {
    index[key := Entry(index, key) + [id]]
  }

  lemma MatchingGrows(events: seq<Event>, e: Event, p: Event -> bool)
    ensures Matching(events + [e], p) == Matching(events, p) + (if p(e) then [|events|] else [])
  {
    assert (events + [e])[..|events|] == events;
  }

  /** Appending an event and extending both indexes keeps them equal to the filtered log. */
  lemma AppendKeepsIndexes(events: seq<Event>, byCorrelation: map<string, seq<Id>>,
                           bySubject: map<(string, Id), seq<Id>>, e: Event)
    requires CorrelationIndex(events, byCorrelation) && SubjectIndex(events, bySubject)
    ensures CorrelationIndex(events + [e], Extend(byCorrelation, e.correlationId, |events|))
    ensures SubjectIndex(events + [e], Extend(bySubject, (e.subjectType, e.subjectId), |events|))
  {
    forall c: string
      ensures Entry(Extend(byCorrelation, e.correlationId, |events|), c) == Matching(events + [e], HasCorrelation(c))
    {
      MatchingGrows(events, e, HasCorrelation(c));
    }
    forall s: (string, Id)
      ensures Entry(Extend(bySubject, (e.subjectType, e.subjectId), |events|), s) == Matching(events + [e], HasSubject(s))
    {
      MatchingGrows(events, e, HasSubject(s));
    }
  }

  lemma {:induction false} MatchingMeans(events: seq<Event>, p: Event -> bool)
    ensures var ids := Matching(events, p);
      && (forall id: Id :: id in ids <==> id < |events| && p(events[id]))
      && (forall i, j :: 0 <= i < j < |ids| ==> ids[i] < ids[j])
  {
    if events != [] {
      MatchingMeans(events[..|events| - 1], p);
    }
  }

  /**
   * What the two listings return: the events with this correlation id, or with this subject, in
   * insertion order, each of them once.
   */
  lemma ListingsMean(events: seq<Event>, correlationId: string, subjectType: string, subjectId: Id)
    returns (byCorrelation: seq<Id>, bySubject: seq<Id>)
    ensures forall id: Id :: id in byCorrelation <==> id < |events| && events[id].correlationId == correlationId
    ensures forall id: Id :: id in bySubject <==>
              id < |events| && events[id].subjectType == subjectType && events[id].subjectId == subjectId
    ensures forall i, j :: 0 <= i < j < |byCorrelation| ==> byCorrelation[i] < byCorrelation[j]
    ensures forall i, j :: 0 <= i < j < |bySubject| ==> bySubject[i] < bySubject[j]
    ensures |Filter(events, HasCorrelation(correlationId))| == |byCorrelation|
    ensures forall i :: 0 <= i < |byCorrelation| ==>
              byCorrelation[i] < |events| && Filter(events, HasCorrelation(correlationId))[i] == events[byCorrelation[i]]
    ensures |Filter(events, HasSubject((subjectType, subjectId)))| == |bySubject|
    ensures forall i :: 0 <= i < |bySubject| ==>
              bySubject[i] < |events| && Filter(events, HasSubject((subjectType, subjectId)))[i] == events[bySubject[i]]
  {
    hide Filter, Matching;
    byCorrelation := Matching(events, HasCorrelation(correlationId));
    bySubject := Matching(events, HasSubject((subjectType, subjectId)));
    MatchingMeans(events, HasCorrelation(correlationId));
    MatchingMeans(events, HasSubject((subjectType, subjectId)));
    PickMatching(events, HasCorrelation(correlationId));
    PickMatching(events, HasSubject((subjectType, subjectId)));
  }

  class AuditLog {
    var events: seq<Event>
    var byCorrelation: map<string, seq<Id>>
    var bySubject: map<(string, Id), seq<Id>>

    /** Both indexes equal the log filtered in insertion order. */
    ghost predicate Valid()
      reads this
    {
      CorrelationIndex(events, byCorrelation) && SubjectIndex(events, bySubject)
    }

    constructor ()
      ensures Valid() && events == []
    {
      events, byCorrelation, bySubject := [], map[], map[];
    }

    /** Appends an event; an unknown actor type or a contract violation changes nothing. */
    method RecordAuditEvent(e: Event, contractOk: bool) returns (r: Result<Id, Error>)
      requires Valid()
      modifies this
      ensures Valid()
      ensures r.Ok? <==> e.actorType in ACTOR_TYPES && contractOk
      ensures r.Ok? ==> r.value == |old(events)| && events == old(events) + [e]
      ensures r.Err? ==> r.error == ValidationError && unchanged(this)
    {
      if e.actorType !in ACTOR_TYPES || !contractOk {
        return Err(ValidationError);
      }
      var id := |events|;
      var subject := (e.subjectType, e.subjectId);
      AppendKeepsIndexes(events, byCorrelation, bySubject, e);
      byCorrelation := Extend(byCorrelation, e.correlationId, id);
      bySubject := Extend(bySubject, subject, id);
      events := events + [e];
      r := Ok(id);
    }

    /** Appends events that are known to be well formed. */
    method Append(more: seq<Event>)
      requires Valid()
      requires forall e :: e in more ==> e.actorType in ACTOR_TYPES
      modifies this
      ensures Valid() && events == old(events) + more
    {
      var i := 0;
      while i < |more|
        invariant 0 <= i <= |more|
        invariant Valid() && events == old(events) + more[..i]
      {
        assert more[i] in more;
        var _ := RecordAuditEvent(more[i], true);
        i := i + 1;
      }
    }

    method GetAuditEvent(id: Id) returns (r: Result<Event, Error>)
      ensures r == if id < |events| then Ok(events[id]) else Err(NotFoundError)
    {
      r := if id < |events| then Ok(events[id]) else Err(NotFoundError);
    }

    method ListByCorrelation(correlationId: string) returns (r: seq<Event>)
      requires Valid()
      ensures r == Filter(events, HasCorrelation(correlationId))
    {
      PickMatching(events, HasCorrelation(correlationId));
      assert Entry(byCorrelation, correlationId) == Matching(events, HasCorrelation(correlationId));
      r := Pick(events, Entry(byCorrelation, correlationId));
    }

    method ListBySubject(subjectType: string, subjectId: Id) returns (r: seq<Event>)
      requires Valid()
      ensures r == Filter(events, HasSubject((subjectType, subjectId)))
    {
      var subject := (subjectType, subjectId);
      PickMatching(events, HasSubject(subject));
      assert Entry(bySubject, subject) == Matching(events, HasSubject(subject));
      r := Pick(events, Entry(bySubject, subject));
    }

    /** Copies the log, filters it by time and by type, sorts it backwards and takes the page. */
    method ListRecent(limit: int, before: Option<Time>, prefix: Option<string>) returns (r: seq<Id>)
      ensures r == Recent(events, limit, before, prefix)
    {
      hide Sort;
      var ids := AllIds(|events|);
      if before.Some? { ids := KeepBefore(events, ids, before.value); }
      if prefix.Some? { ids := KeepPrefix(events, ids, prefix.value); }
      TwoFilters(events, before, prefix);
      r := Reversed(Sort(ids, ByTime(events)));
      r := Take(r, limit);
    }
  }
}
