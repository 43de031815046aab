/** Logical backup and restore of the object store (ops/backup_objects.py, ops/restore_objects.py). */
module Backup {
  import opened Common

  type Bytes = seq<bv8>
  type Bucket = map<string, Bytes>

  // ---------------------------------------------------------------------------------------------
  // Keys and paths
  // ---------------------------------------------------------------------------------------------

  /** A file path below the backup directory, as its components. */
  type Path = seq<string>
  type Files = map<Path, Bytes>

  /** The components of a key, empty ones included: "a//b" has three. */
  function Split(key: string): (parts: Path)
    ensures parts != []
  {
    if key == "" then [""]
    else if key[0] == '/' then [""] + Split(key[1..])
    else var rest := Split(key[1..]); [[key[0]] + rest[0]] + rest[1..]
  }

  function Join(path: Path): string {
    if path == [] then ""
    else if |path| == 1 then path[0]
    else path[0] + "/" + Join(path[1..])
  }

  /** pathlib drops the components "" and "." when it joins paths. */
  predicate Kept(part: string) { part != "" && part != "." }

  function Normal(parts: Path): Path {
    if parts == [] then []
    else (if Kept(parts[0]) then [parts[0]] else []) + Normal(parts[1..])
  }

  /** The file that `output_dir / key` names, for a key that stays inside the directory. */
  function PathOf(key: string): Path { Normal(Split(key)) }

  /** No absolute key, no parent component, no NUL: the path stays below the directory. */
  predicate Inside(key: string) {
    !("/" <= key) && ".." !in Split(key) && '\0' !in key
  }

  /** No component is lost on the way through the file system. */
  predicate Plain(key: string) {
    forall part :: part in Split(key) ==> Kept(part)
  }

  predicate Proper(path: Path) {
    path != [] && forall i :: 0 <= i < |path| ==> Kept(path[i]) && '/' !in path[i]
  }

  lemma {:induction false} JoinSplit(key: string)
    ensures Join(Split(key)) == key
  {
    if key != "" {
      JoinSplit(key[1..]);
      var c, rest, parts := key[0], Split(key[1..]), Split(key);
      assert key == [c] + key[1..];
      if c == '/' {
        assert parts[1..] == rest;
        assert Join(parts) == "" + "/" + key[1..];
      } else if |rest| == 1 {
        assert Join(parts) == [c] + key[1..];
      } else {
        assert parts[1..] == rest[1..];
        assert Join(parts) == [c] + rest[0] + "/" + Join(rest[1..]);
      }
    }
  }

  lemma {:induction false} NoSlashInParts(key: string)
    ensures forall i :: 0 <= i < |Split(key)| ==> '/' !in Split(key)[i]
  {
    if key != "" { NoSlashInParts(key[1..]); }
  }

  lemma {:induction false} SplitPart(part: string, key: string)
    requires '/' !in part
    ensures Split(part) == [part]
    ensures Split(part + "/" + key) == [part] + Split(key)
  {
    var whole := part + "/" + key;
    if part == "" {
      assert whole[1..] == key;
    } else {
      SplitPart(part[1..], key);
      assert whole[1..] == part[1..] + "/" + key;
      assert part == [part[0]] + part[1..];
    }
  }

  /** Joining and splitting are inverse to each other, so a file path and its key determine each other. */
  lemma {:induction false} SplitJoin(path: Path)
    requires path != [] && forall i :: 0 <= i < |path| ==> '/' !in path[i]
    ensures Split(Join(path)) == path
  {
    if |path| == 1 {
      SplitPart(path[0], "");
    } else {
      SplitJoin(path[1..]);
      SplitPart(path[0], Join(path[1..]));
    }
  }

  lemma {:induction false} NormalKeeps(parts: Path)
    ensures forall part :: part in Normal(parts) <==> part in parts && Kept(part)
    ensures (forall part :: part in parts ==> Kept(part)) ==> Normal(parts) == parts
  {
    if parts != [] {
      NormalKeeps(parts[1..]);
      assert forall part :: part in parts <==> part == parts[0] || part in parts[1..];
    }
  }

  /** A key's path is proper unless it is the directory itself. */
  lemma PathIsProper(key: string)
    requires PathOf(key) != []
    ensures Proper(PathOf(key))
  {
    NormalKeeps(Split(key));
    NoSlashInParts(key);
    forall i | 0 <= i < |PathOf(key)| ensures Kept(PathOf(key)[i]) && '/' !in PathOf(key)[i] {
      assert PathOf(key)[i] in Normal(Split(key));
    }
  }

  /** Exactly the keys without an empty or "." component come back from the file system unchanged. */
  lemma PlainIffReturns(key: string)
    ensures "" !in Split(key) && "." !in Split(key) <==> PathOf(key) != [] && Join(PathOf(key)) == key
    ensures PathOf(key) != [] ==> "" !in Split(Join(PathOf(key))) && "." !in Split(Join(PathOf(key)))
  {
    NormalKeeps(Split(key));
    JoinSplit(key);
    if PathOf(key) != [] {
      PathIsProper(key);
      SplitJoin(PathOf(key));
    }
  }

  // ---------------------------------------------------------------------------------------------
  // Backup
  // ---------------------------------------------------------------------------------------------

  /** The hash that a canonical key encodes, and the digest function. */
  datatype Integrity = Integrity(expected: string -> Option<string>, sha: Bytes -> string)

  predicate Corrupt(e: Integrity, key: string, data: Bytes) {
    e.expected(key).Some? && e.sha(data) != e.expected(key).value
  }

  predicate Above(a: Path, b: Path) { |a| < |b| && a == b[..|a|] }

  /** The path is not the directory itself, no ancestor is a file and it is no directory on the way to one. */
  predicate Writable(files: Files, path: Path) {
    path != [] && forall p :: p in files ==> !Above(p, path) && !Above(path, p)
  }

  datatype BackupState = BackupState(files: Files, count: nat, corrupt: seq<string>, raised: bool)

  const EMPTY: BackupState := BackupState(map[], 0, [], false)

  function BackupKey(s: BackupState, key: string, bucket: Bucket, e: Integrity): BackupState
    requires key in bucket
  {
    var data := bucket[key];
    var flagged := if Corrupt(e, key, data) then s.corrupt + [key] else s.corrupt;
    if !Writable(s.files, PathOf(key)) then s.(corrupt := flagged, raised := true)
    else BackupState(s.files[PathOf(key) := data], s.count + 1, flagged, false)
  }

  function BackupKeys(s: BackupState, keys: seq<string>, bucket: Bucket, e: Integrity): BackupState
    requires forall k :: k in keys ==> k in bucket
    decreases |keys|
  {
    if s.raised || keys == [] then s
    else BackupKeys(BackupKey(s, keys[0], bucket, e), keys[1..], bucket, e)
  }

  function Flatten(pages: seq<seq<string>>): seq<string> {
    if pages == [] then [] else pages[0] + Flatten(pages[1..])
  }

  function ExitCode(s: BackupState): int { if s.raised || s.corrupt != [] then 1 else 0 }

  /** No key names the directory itself and no key's path leads through another key's file. */
  predicate Fits(files: Files, keys: seq<string>) {
    && (forall k :: k in keys ==> Writable(files, PathOf(k)))
    && (forall k, l :: k in keys && l in keys ==> !Above(PathOf(k), PathOf(l)))
  }

  lemma FitsStep(files: Files, keys: seq<string>, data: Bytes)
    requires keys != []
    ensures Fits(files, keys) <==>
            Writable(files, PathOf(keys[0])) && Fits(files[PathOf(keys[0]) := data], keys[1..])
  {
    hide PathOf;
    var k0 := keys[0];
    assert forall k :: k in keys <==> k == k0 || k in keys[1..];
    forall k ensures Writable(files[PathOf(k0) := data], PathOf(k)) <==>
        Writable(files, PathOf(k)) && !Above(PathOf(k0), PathOf(k)) && !Above(PathOf(k), PathOf(k0))
    {
      var after := files[PathOf(k0) := data];
      assert PathOf(k0) in after && forall p :: p in files ==> p in after;
    }
  }

  lemma {:induction false} CompletesIfFits(s: BackupState, keys: seq<string>, bucket: Bucket, e: Integrity)
    requires !s.raised && forall k :: k in keys ==> k in bucket
    ensures !BackupKeys(s, keys, bucket, e).raised <==> Fits(s.files, keys)
    decreases |keys|
  {
    if keys != [] {
      FitsStep(s.files, keys, bucket[keys[0]]);
      if Writable(s.files, PathOf(keys[0])) {
        CompletesIfFits(BackupKey(s, keys[0], bucket, e), keys[1..], bucket, e);
      }
    }
  }

  /**
   * A backup completes exactly when no key names the directory itself and no key's path is a proper
   * prefix of another's, or in the way of a file already there, in whatever order they are listed.
   */
  lemma CompletesIff(s: BackupState, keys: seq<string>, bucket: Bucket, e: Integrity)
    requires !s.raised && forall k :: k in keys ==> k in bucket
    ensures !BackupKeys(s, keys, bucket, e).raised <==>
      && (forall k :: k in keys ==> PathOf(k) != [])
      && (forall k, l :: k in keys && l in keys ==> !(PathOf(k) < PathOf(l)))
      && (forall k, p :: k in keys && p in s.files ==> !(p < PathOf(k)) && !(PathOf(k) < p))
  {
    hide PathOf, BackupKeys;
    CompletesIfFits(s, keys, bucket, e);
    forall a: Path, b: Path ensures Above(a, b) <==> a < b {}
  }

  /** The exit code is 0 exactly when no path is in the way of another and no listed object disagrees with its key. */
  lemma ExitZeroIff(keys: seq<string>, bucket: Bucket, e: Integrity)
    requires forall k :: k in keys ==> k in bucket
    ensures ExitCode(BackupKeys(EMPTY, keys, bucket, e)) == 0 <==>
      && (forall k :: k in keys ==> PathOf(k) != [])
      && (forall k, l :: k in keys && l in keys ==> !(PathOf(k) < PathOf(l)))
      && (forall k :: k in keys && e.expected(k).Some? ==> e.sha(bucket[k]) == e.expected(k).value)
  {
    hide PathOf, BackupKeys;
    CompletesIff(EMPTY, keys, bucket, e);
    var r := BackupKeys(EMPTY, keys, bucket, e);
    if !r.raised {
      forall k ensures k in r.corrupt <==> k in keys && e.expected(k).Some? && e.sha(bucket[k]) != e.expected(k).value {
        FlagsEveryCorruptKey(EMPTY, keys, bucket, e, k);
      }
      if r.corrupt != [] { assert r.corrupt[0] in r.corrupt; }
    }
  }

  /** A completed backup holds one file per key path; the flags and the count tell the whole listing. */
  lemma {:induction false} CompletedBackup(s: BackupState, keys: seq<string>, bucket: Bucket, e: Integrity, path: Path)
    requires forall k :: k in keys ==> k in bucket
    requires !BackupKeys(s, keys, bucket, e).raised
    ensures var r := BackupKeys(s, keys, bucket, e);
      && (path in r.files <==> path in s.files || exists k :: k in keys && PathOf(k) == path)
      && (path in r.files ==> (path in s.files && r.files[path] == s.files[path])
                              || exists k :: k in keys && PathOf(k) == path && r.files[path] == bucket[k])
      && r.count == s.count + |keys|
    decreases |keys|
  {
    if keys != [] {
      CompletedBackup(BackupKey(s, keys[0], bucket, e), keys[1..], bucket, e, path);
      assert forall k :: k in keys <==> k == keys[0] || k in keys[1..];
    }
  }

  /** The flagged keys of a completed backup are exactly the listed ones whose object disagrees with the hash in the key. */
  lemma {:induction false} FlagsEveryCorruptKey(s: BackupState, keys: seq<string>, bucket: Bucket, e: Integrity, k: string)
    requires forall k :: k in keys ==> k in bucket
    requires !BackupKeys(s, keys, bucket, e).raised
    ensures k in BackupKeys(s, keys, bucket, e).corrupt <==>
            k in s.corrupt || (k in keys && e.expected(k).Some? && e.sha(bucket[k]) != e.expected(k).value)
    decreases |keys|
  {
    if keys != [] {
      FlagsEveryCorruptKey(BackupKey(s, keys[0], bucket, e), keys[1..], bucket, e, k);
      assert k in keys <==> k == keys[0] || k in keys[1..];
    }
  }

  // ---------------------------------------------------------------------------------------------
  // Restore
  // ---------------------------------------------------------------------------------------------

  datatype RestoreState = RestoreState(objects: Bucket, count: nat, refused: Option<string>)

  function RestoreFiles(s: RestoreState, order: seq<Path>, files: Files, e: Integrity): RestoreState
    requires forall p :: p in order ==> p in files
    decreases |order|
  {
    if s.refused.Some? || order == [] then s
    else if Corrupt(e, Join(order[0]), files[order[0]]) then s.(refused := Some(Join(order[0])))
    else RestoreFiles(RestoreState(s.objects[Join(order[0]) := files[order[0]]], s.count + 1, None), order[1..], files, e)
  }

  predicate Names(paths: seq<Path>, key: string) {
    exists p :: p in paths && Join(p) == key
  }

  ghost predicate Written(objects: Bucket, order: seq<Path>, files: Files, key: string) {
    exists p :: p in order && p in files && Join(p) == key && key in objects && objects[key] == files[p]
  }

  lemma {:induction false} StopsAtFirstCorrupt(s: RestoreState, order: seq<Path>, files: Files, e: Integrity)
    requires s.refused.None? && forall p :: p in order ==> p in files
    ensures var r := RestoreFiles(s, order, files, e); var n := r.count - s.count;
      && 0 <= n <= |order|
      && (forall i :: 0 <= i < n ==> !Corrupt(e, Join(order[i]), files[order[i]]))
      && (r.refused.None? <==> n == |order|)
      && (r.refused.Some? ==> Corrupt(e, Join(order[n]), files[order[n]]) && r.refused.value == Join(order[n]))
    decreases |order|
  {
    hide Corrupt, Join;
    if order != [] && !Corrupt(e, Join(order[0]), files[order[0]]) {
      StopsAtFirstCorrupt(RestoreState(s.objects[Join(order[0]) := files[order[0]]], s.count + 1, None), order[1..], files, e);
    }
  }

  /**
   * A restore goes through the files in order and stops at the first one whose bytes do not have the
   * hash that its key encodes; it finishes exactly when there is none.
   */
  lemma RestoreStopsAtCorrupt(s: RestoreState, order: seq<Path>, files: Files, e: Integrity)
    requires s.refused.None? && forall p :: p in order ==> p in files
    ensures var r := RestoreFiles(s, order, files, e); var n := r.count - s.count;
      && 0 <= n <= |order|
      && (forall i :: 0 <= i < n && e.expected(Join(order[i])).Some? ==>
            e.sha(files[order[i]]) == e.expected(Join(order[i])).value)
      && (r.refused.None? <==> n == |order|)
      && (r.refused.Some? ==>
            && r.refused.value == Join(order[n]) && e.expected(Join(order[n])).Some?
            && e.sha(files[order[n]]) != e.expected(Join(order[n])).value)
  {
    hide RestoreFiles, Join;
    StopsAtFirstCorrupt(s, order, files, e);
  }

  /** Only the files before the stop are written; every other object of the bucket is left alone. */
  lemma {:induction false} RestoreWritesEarlierFiles(s: RestoreState, order: seq<Path>, files: Files, e: Integrity, k: string)
    requires s.refused.None? && forall p :: p in order ==> p in files
    ensures var r := RestoreFiles(s, order, files, e); var n := r.count - s.count;
      && 0 <= n <= |order|
      && (k in r.objects <==> k in s.objects || Names(order[..n], k))
      && (k in r.objects ==>
            Written(r.objects, order[..n], files, k) || (k in s.objects && r.objects[k] == s.objects[k]))
    decreases |order|
  {
    hide Corrupt, Join;
    if order != [] && !Corrupt(e, Join(order[0]), files[order[0]]) {
      var s1 := RestoreState(s.objects[Join(order[0]) := files[order[0]]], s.count + 1, None);
      RestoreWritesEarlierFiles(s1, order[1..], files, e, k);
      var r := RestoreFiles(s, order, files, e);
      var n := r.count - s.count;
      var rest := order[1..][..n - 1];
      assert order[..n] == [order[0]] + rest;
      assert forall p :: p in order[..n] <==> p == order[0] || p in rest;
      assert Names(order[..n], k) <==> Join(order[0]) == k || Names(rest, k);
    }
  }

  // ---------------------------------------------------------------------------------------------
  // Backup, then restore
  // ---------------------------------------------------------------------------------------------

  ghost predicate AllPlain(bucket: Bucket) {
    forall k :: k in bucket ==> Plain(k)
  }

  lemma ReproducesIfPlain(bucket: Bucket, keys: seq<string>, order: seq<Path>, e: Integrity)
    requires forall k :: k in bucket <==> k in keys
    requires ExitCode(BackupKeys(EMPTY, keys, bucket, e)) == 0
    requires forall p :: p in order <==> p in BackupKeys(EMPTY, keys, bucket, e).files
    ensures var r := RestoreFiles(RestoreState(map[], 0, None), order, BackupKeys(EMPTY, keys, bucket, e).files, e);
      if AllPlain(bucket) then r.objects == bucket && r.refused.None? else r.objects != bucket
  {
    hide PathOf, Join, BackupKeys, RestoreFiles, Split;
    var files := BackupKeys(EMPTY, keys, bucket, e).files;
    var r := RestoreFiles(RestoreState(map[], 0, None), order, files, e);
    if AllPlain(bucket) {
      FilesOfPlainKeys(bucket, keys, e);
      PlainFilesRestore(bucket, files, order, e);
    } else {
      var k :| k in bucket && !Plain(k);
      RestoreWritesEarlierFiles(RestoreState(map[], 0, None), order, files, e, k);
      if k in r.objects {
        var p :| p in order[..r.count] && p in files && Join(p) == k;
        CompletedBackup(EMPTY, keys, bucket, e, p);
        var l :| l in keys && PathOf(l) == p;
        CompletesIff(EMPTY, keys, bucket, e);
        PlainIffReturns(l);
        assert false;
      }
    }
  }

  /**
   * The law the two scripts exist for.  A backup into an empty directory that exits with 0, restored
   * into an empty bucket, reproduces the bucket exactly, for any pages and any walk over the files,
   * if and only if no key has an empty or "." component.  (Two keys such as "a/b" and "a//b" share one
   * file, and "a/./b" comes back as "a/b", without either script noticing.)
   */
  lemma BackupThenRestore(bucket: Bucket, keys: seq<string>, order: seq<Path>, e: Integrity)
    requires forall k :: k in bucket <==> k in keys
    requires forall k :: k in bucket ==> Inside(k)
    requires ExitCode(BackupKeys(EMPTY, keys, bucket, e)) == 0
    requires forall p :: p in order <==> p in BackupKeys(EMPTY, keys, bucket, e).files
    ensures var r := RestoreFiles(RestoreState(map[], 0, None), order, BackupKeys(EMPTY, keys, bucket, e).files, e);
      && (r.objects == bucket <==> forall k :: k in bucket ==> "" !in Split(k) && "." !in Split(k))
      && (r.objects == bucket ==> r.refused.None?)
  {
    hide Split, BackupKeys, RestoreFiles;
    ReproducesIfPlain(bucket, keys, order, e);
    forall k | k in bucket ensures Plain(k) <==> "" !in Split(k) && "." !in Split(k) {
      PlainMeans(k);
    }
  }

  lemma PlainMeans(key: string)
    ensures Plain(key) <==> "" !in Split(key) && "." !in Split(key)
  {
    assert !Kept("") && !Kept(".");
  }

  lemma OneFileForTwoKeys()
    ensures PathOf("a/b") == ["a", "b"] && PathOf("a//b") == ["a", "b"] && Join(["a", "b"]) == "a/b"
  {
    JoinSplit("a/b");
    SplitPart("b", "");
    SplitPart("", "b");
    SplitPart("a", "b");
    SplitPart("a", "/b");
    assert "a" + "/" + "b" == "a/b" && "a" + "/" + "/b" == "a//b" && "" + "/" + "b" == "/b";
    assert ["a", "b"][1..] == ["b"] && ["a", "", "b"][1..] == ["", "b"] && ["", "b"][1..] == ["b"];
    assert Normal(["b"]) == ["b"];
    assert Normal(["", "b"]) == ["b"];
  }

  /** A bucket that backup and restore do not reproduce, although both report success. */
  lemma DoubledSlashIsLost(x: Bytes, y: Bytes, e: Integrity)
    requires e.expected("a/b") == None && e.expected("a//b") == None
    ensures var bucket: Bucket := map["a/b" := x, "a//b" := y]; var b := BackupKeys(EMPTY, ["a/b", "a//b"], bucket, e);
      && ExitCode(b) == 0 && b.count == 2 && b.files == map[["a", "b"] := y]
      && RestoreFiles(RestoreState(map[], 0, None), [["a", "b"]], b.files, e) == RestoreState(map["a/b" := y], 1, None)
  {
    hide PathOf, Join, Split, Normal;
    OneFileForTwoKeys();
    var bucket: Bucket := map["a/b" := x, "a//b" := y];
    var one := BackupKey(EMPTY, "a/b", bucket, e);
    var two := BackupKey(one, "a//b", bucket, e);
    assert two.files == map[["a", "b"] := y];
    assert ["a/b", "a//b"][1..] == ["a//b"];
    NothingListed(two, bucket, e);
    assert ["a//b"][1..] == [];
    assert BackupKeys(one, ["a//b"], bucket, e) == two;
    assert [["a", "b"]][1..] == [];
  }

  ghost predicate Mirrors(files: Files, bucket: Bucket) {
    && (forall k :: k in bucket ==> PathOf(k) in files && files[PathOf(k)] == bucket[k] && Join(PathOf(k)) == k)
    && (forall p :: p in files ==> Join(p) in bucket && PathOf(Join(p)) == p)
  }

  /** Plain keys and files determine each other, so a completed backup mirrors the bucket. */
  lemma FilesOfPlainKeys(bucket: Bucket, keys: seq<string>, e: Integrity)
    requires AllPlain(bucket) && forall k :: k in bucket <==> k in keys
    requires ExitCode(BackupKeys(EMPTY, keys, bucket, e)) == 0
    ensures Mirrors(BackupKeys(EMPTY, keys, bucket, e).files, bucket)
    ensures forall k :: k in bucket ==> !Corrupt(e, k, bucket[k])
  {
    hide PathOf;
    var files := BackupKeys(EMPTY, keys, bucket, e).files;
    forall k | k in bucket
      ensures PathOf(k) in files && files[PathOf(k)] == bucket[k] && Join(PathOf(k)) == k && !Corrupt(e, k, bucket[k])
    {
      CompletedBackup(EMPTY, keys, bucket, e, PathOf(k));
      FlagsEveryCorruptKey(EMPTY, keys, bucket, e, k);
      var l :| l in keys && PathOf(l) == PathOf(k) && files[PathOf(k)] == bucket[l];
      PlainIffReturns(k);
      PlainIffReturns(l);
    }
    forall p | p in files ensures Join(p) in bucket && PathOf(Join(p)) == p {
      CompletedBackup(EMPTY, keys, bucket, e, p);
      var l :| l in keys && PathOf(l) == p;
      PlainIffReturns(l);
    }
  }

  lemma PlainFilesRestore(bucket: Bucket, files: Files, order: seq<Path>, e: Integrity)
    requires Mirrors(files, bucket) && forall k :: k in bucket ==> !Corrupt(e, k, bucket[k])
    requires forall p :: p in order <==> p in files
    ensures var r := RestoreFiles(RestoreState(map[], 0, None), order, files, e);
      r.objects == bucket && r.refused.None?
  {
    hide PathOf, Corrupt, RestoreFiles;
    var r := RestoreFiles(RestoreState(map[], 0, None), order, files, e);
    StopsAtFirstCorrupt(RestoreState(map[], 0, None), order, files, e);
    forall i | 0 <= i < |order| ensures !Corrupt(e, Join(order[i]), files[order[i]]) {
      assert order[i] in order;
    }
    assert order[..r.count] == order;
    forall k ensures k in r.objects <==> k in bucket
      ensures k in r.objects ==> r.objects[k] == bucket[k]
    {
      RestoreWritesEarlierFiles(RestoreState(map[], 0, None), order, files, e, k);
      if k in bucket { assert PathOf(k) in order; assert Names(order, k); }
    }
  }

  // ---------------------------------------------------------------------------------------------
  // The scripts
  // ---------------------------------------------------------------------------------------------

  class Directory {
    var files: Files

    constructor ()
      ensures files == map[]
    {
      files := map[];
    }

    /** `parent.mkdir(parents=True, exist_ok=True)` and `write_bytes`; false when either raises. */
    method Write(path: Path, data: Bytes) returns (ok: bool)
      modifies this
      ensures ok == Writable(old(files), path)
      ensures files == if ok then old(files)[path := data] else old(files)
    {
      ok := Writable(files, path);
      if ok { files := files[path := data]; }
    }
  }

  class Store {
    var objects: Bucket

    constructor ()
      ensures objects == map[]
    {
      objects := map[];
    }

    method PutObject(key: string, data: Bytes)
      modifies this
      ensures objects == old(objects)[key := data]
    {
      objects := objects[key := data];
    }
  }

  /** Backs up one page of the listing; `ok` turns false when a write raises. */
  method BackupPage(bucket: Bucket, page: seq<string>, output: Directory, e: Integrity, count0: nat, corrupt0: seq<string>)
    returns (count: nat, corrupt: seq<string>, ok: bool)
    requires forall k :: k in page ==> k in bucket && Inside(k)
    modifies output
    ensures BackupState(output.files, count, corrupt, !ok) ==
            BackupKeys(BackupState(old(output.files), count0, corrupt0, false), page, bucket, e)
  {
    hide Writable, PathOf, Corrupt, Inside;
    count, corrupt, ok := count0, corrupt0, true;
    ghost var want := BackupKeys(BackupState(output.files, count, corrupt, false), page, bucket, e);
    var i := 0;
    while i < |page|
      invariant 0 <= i <= |page| && ok
      invariant BackupKeys(BackupState(output.files, count, corrupt, false), page[i..], bucket, e) == want
    {
      assert page[i..][0] == page[i] && page[i..][1..] == page[i + 1..];
      var key := page[i];
      var data := bucket[key];
      if Corrupt(e, key, data) { corrupt := corrupt + [key]; }
      ok := output.Write(PathOf(key), data);
      if !ok { return; }
      count := count + 1;
      i := i + 1;
    }
  }

  method BackupBucket(bucket: Bucket, pages: seq<seq<string>>, output: Directory, e: Integrity)
    returns (exitCode: int, count: nat, corrupt: seq<string>, ok: bool)
    requires forall k :: k in Flatten(pages) ==> k in bucket && Inside(k)
    modifies output
    ensures var want := BackupKeys(BackupState(old(output.files), 0, [], false), Flatten(pages), bucket, e);
      BackupState(output.files, count, corrupt, !ok) == want && exitCode == ExitCode(want)
  {
    hide BackupKeys, Inside;
    count, corrupt, ok := 0, [], true;
    ghost var want := BackupKeys(BackupState(output.files, 0, [], false), Flatten(pages), bucket, e);
    var i := 0;
    while i < |pages|
      invariant 0 <= i <= |pages| && ok
      invariant forall k :: k in Flatten(pages[i..]) ==> k in bucket && Inside(k)
      invariant BackupKeys(BackupState(output.files, count, corrupt, false), Flatten(pages[i..]), bucket, e) == want
    {
      assert pages[i..][0] == pages[i] && pages[i..][1..] == pages[i + 1..];
      PageThenRest(BackupState(output.files, count, corrupt, false), pages[i], Flatten(pages[i + 1..]), bucket, e);
      count, corrupt, ok := BackupPage(bucket, pages[i], output, e, count, corrupt);
      if !ok {
        StopsWhenRaised(BackupState(output.files, count, corrupt, true), Flatten(pages[i + 1..]), bucket, e);
        return 1, count, corrupt, ok;
      }
      i := i + 1;
    }
    NothingListed(BackupState(output.files, count, corrupt, false), bucket, e);
    exitCode := if corrupt != [] then 1 else 0;
  }

  lemma NothingListed(s: BackupState, bucket: Bucket, e: Integrity)
    ensures BackupKeys(s, [], bucket, e) == s
  {}

  lemma StopsWhenRaised(s: BackupState, keys: seq<string>, bucket: Bucket, e: Integrity)
    requires s.raised && forall k :: k in keys ==> k in bucket
    ensures BackupKeys(s, keys, bucket, e) == s
  {}

  /** Page boundaries do not matter. */
  lemma {:induction false} PageThenRest(s: BackupState, page: seq<string>, rest: seq<string>, bucket: Bucket, e: Integrity)
    requires forall k :: k in page + rest ==> k in bucket
    ensures (forall k :: k in page ==> k in bucket) && (forall k :: k in rest ==> k in bucket)
    ensures BackupKeys(s, page + rest, bucket, e) == BackupKeys(BackupKeys(s, page, bucket, e), rest, bucket, e)
    decreases |page|
  {
    hide BackupKey;
    assert forall k :: k in page ==> k in page + rest;
    assert forall k :: k in rest ==> k in page + rest;
    if page == [] {
      assert page + rest == rest;
    } else if !s.raised {
      assert (page + rest)[1..] == page[1..] + rest;
      PageThenRest(BackupKey(s, page[0], bucket, e), page[1..], rest, bucket, e);
    }
  }

  method Restore(input: Directory, order: seq<Path>, store: Store, e: Integrity) returns (count: nat, refused: Option<string>)
    requires forall p :: p in order <==> p in input.files
    modifies store
    ensures RestoreState(store.objects, count, refused) ==
            RestoreFiles(RestoreState(old(store.objects), 0, None), order, input.files, e)
  {
    hide Corrupt;
    count, refused := 0, None;
    ghost var want := RestoreFiles(RestoreState(store.objects, 0, None), order, input.files, e);
    var i := 0;
    while i < |order|
      invariant 0 <= i <= |order| && refused.None?
      invariant RestoreFiles(RestoreState(store.objects, count, None), order[i..], input.files, e) == want
    {
      assert order[i..][0] == order[i] && order[i..][1..] == order[i + 1..];
      var key, data := Join(order[i]), input.files[order[i]];
      if Corrupt(e, key, data) { refused := Some(key); return; }
      store.PutObject(key, data);
      count := count + 1;
      i := i + 1;
    }
  }
}
