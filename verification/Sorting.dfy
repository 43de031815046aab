/** Sorting by (time, identifier), the one ordering that every listing of the repository uses. */
module Sorting {

  datatype Key = Key(time: int, id: nat)

  predicate Less(a: Key, b: Key) {
    a.time < b.time || (a.time == b.time && a.id < b.id)
  }

  function Insert<T>(x: T, s: seq<T>, key: T -> Key): seq<T> {
    if s == [] then [x]
    else if Less(key(s[0]), key(x)) then [s[0]] + Insert(x, s[1..], key)
    else [x] + s
  }

  /** Stable ascending sort. */
  function Sort<T>(s: seq<T>, key: T -> Key): seq<T> {
    if s == [] then [] else Insert(s[0], Sort(s[1..], key), key)
  }

  ghost predicate StrictlyAscending<T>(s: seq<T>, key: T -> Key) {
    forall i, j :: 0 <= i < j < |s| ==> Less(key(s[i]), key(s[j]))
  }

  ghost predicate DistinctKeys<T>(s: seq<T>, key: T -> Key) {
    forall i, j :: 0 <= i < j < |s| ==> key(s[i]) != key(s[j])
  }

  lemma {:induction false} InsertAdds<T>(x: T, s: seq<T>, key: T -> Key, y: T)
    ensures |Insert(x, s, key)| == |s| + 1
    ensures y in Insert(x, s, key) <==> y == x || y in s
  {
    if s != [] && Less(key(s[0]), key(x)) {
      InsertAdds(x, s[1..], key, y);
      assert y in s <==> y == s[0] || y in s[1..];
    }
  }

  lemma {:induction false} SortHolds<T>(s: seq<T>, key: T -> Key, y: T)
    ensures |Sort(s, key)| == |s|
    ensures y in Sort(s, key) <==> y in s
  {
    if s != [] {
      SortHolds(s[1..], key, y);
      InsertAdds(s[0], Sort(s[1..], key), key, y);
      assert y in s <==> y == s[0] || y in s[1..];
    }
  }

  /** Sorting keeps the elements and their number. */
  lemma SortKeepsElements<T>(s: seq<T>, key: T -> Key)
    ensures |Sort(s, key)| == |s|
    ensures forall y :: y in Sort(s, key) <==> y in s
  {
    forall y ensures y in Sort(s, key) <==> y in s { SortHolds(s, key, y); }
    if s != [] { SortHolds(s, key, s[0]); }
  }

  lemma {:induction false} InsertStrictlyAscends<T>(x: T, s: seq<T>, key: T -> Key)
    requires StrictlyAscending(s, key)
    requires forall i :: 0 <= i < |s| ==> key(s[i]) != key(x)
    ensures StrictlyAscending(Insert(x, s, key), key)
  {
    if s != [] && Less(key(s[0]), key(x)) {
      var t := Insert(x, s[1..], key);
      InsertStrictlyAscends(x, s[1..], key);
      forall j | 0 <= j < |t| ensures Less(key(s[0]), key(t[j])) {
        InsertAdds(x, s[1..], key, t[j]);
        if t[j] in s[1..] {
          var k :| 0 <= k < |s| - 1 && s[1..][k] == t[j];
          assert Less(key(s[0]), key(s[k + 1]));
        }
      }
    }
  }

  /** Rows whose keys differ are sorted into one strictly ascending sequence. */
  lemma {:induction false} SortStrictlyAscends<T>(s: seq<T>, key: T -> Key)
    requires DistinctKeys(s, key)
    ensures StrictlyAscending(Sort(s, key), key)
  {
    if s != [] {
      var t := Sort(s[1..], key);
      SortStrictlyAscends(s[1..], key);
      forall i | 0 <= i < |t| ensures key(t[i]) != key(s[0]) {
        SortHolds(s[1..], key, t[i]);
        var k :| 0 <= k < |s| - 1 && s[1..][k] == t[i];
        assert key(s[0]) != key(s[k + 1]);
      }
      InsertStrictlyAscends(s[0], t, key);
    }
  }

  /** The first n elements come before all others. */
  lemma FirstBeforeRest<T>(sorted: seq<T>, key: T -> Key, n: nat, a: T, b: T)
    requires StrictlyAscending(sorted, key) && n <= |sorted|
    requires a in sorted[..n] && b in sorted && b !in sorted[..n]
    ensures Less(key(a), key(b))
  {
    var i :| 0 <= i < n && sorted[i] == a;
    var j :| 0 <= j < |sorted| && sorted[j] == b;
    assert forall k :: 0 <= k < n ==> sorted[k] in sorted[..n];
  }

  /** The tail of a strictly ascending sequence holds exactly the elements other than the first, which are greater. */
  lemma TailIsGreater<T>(s: seq<T>, key: T -> Key, x: T)
    requires s != [] && StrictlyAscending(s, key)
    ensures x in s[1..] <==> x in s && x != s[0]
    ensures x in s ==> x == s[0] || Less(key(s[0]), key(x))
  {
    assert x in s <==> x == s[0] || x in s[1..];
    assert forall i :: 0 < i < |s| ==> Less(key(s[0]), key(s[i]));
  }

  /** Strictly ascending sequences with the same elements are the same. */
  lemma {:induction false} SameElementsSameOrder<T>(a: seq<T>, b: seq<T>, key: T -> Key)
    requires StrictlyAscending(a, key) && StrictlyAscending(b, key)
    requires forall x :: x in a <==> x in b
    ensures a == b
    decreases |a|
  {
    assert b == [] || b[0] in a;
    if a != [] {
      assert a[0] in a;
      TailIsGreater(b, key, a[0]);
      TailIsGreater(a, key, b[0]);
      forall x ensures x in a[1..] <==> x in b[1..] {
        TailIsGreater(a, key, x);
        TailIsGreater(b, key, x);
      }
      SameElementsSameOrder(a[1..], b[1..], key);
      assert a == [a[0]] + a[1..] && b == [b[0]] + b[1..];
    }
  }

  ghost function Elements<T>(s: seq<T>): set<T> { set x | x in s }

  lemma {:induction false} DistinctCount<T>(s: seq<T>)
    requires forall i, j :: 0 <= i < j < |s| ==> s[i] != s[j]
    ensures |Elements(s)| == |s|
  {
    if s == [] {
      assert Elements(s) == {};
    } else {
      var n := |s| - 1;
      DistinctCount(s[..n]);
      assert s == s[..n] + [s[n]];
      assert Elements(s) == Elements(s[..n]) + {s[n]};
    }
  }
}
