/**
 * The append-only JSON-lines checkpoint that two scripts share (scripts/migrate_object_store.py and
 * scripts/reprocess_evidence_classification.py).
 */
module Checkpoint {
  import opened Common

  /**
   * One line of a checkpoint file, by what reading it does: blank; no JSON at all, as a crash in the
   * middle of a write leaves it; an object that names a key; an object whose key is absent, falsy or
   * no string; or JSON on which `record.get("key")` or `done[key]` raises, because it is no object
   * or its key is a non-empty list or object.
   */
  datatype Line<K, D> = Blank | Torn | Record(key: K, detail: D) | Keyless | Raising

  /** A file's lines; `ended` tells whether the last one has its newline. */
  datatype File<K, D> = File(lines: seq<Line<K, D>>, ended: bool)

  function Empty<K, D>(): File<K, D> { File([], true) }

  /** The keys of the well-formed records. */
  function Recorded<K(==), D(==)>(lines: seq<Line<K, D>>): set<K> {
    set l | l in lines && l.Record? :: l.key
  }

  predicate AllLoad<K, D>(lines: seq<Line<K, D>>) {
    forall i :: 0 <= i < |lines| ==> !lines[i].Raising?
  }

  predicate Loads<K, D>(file: File<K, D>) { AllLoad(file.lines) }

  /** `load_checkpoint`: the recorded keys, or the number of the first line that raises. */
  method LoadCheckpoint<K(==), D(==)>(file: File<K, D>) returns (r: Result<set<K>, nat>)
    ensures r.Ok? <==> forall l :: l in file.lines ==> !l.Raising?
    ensures r.Ok? <==> Loads(file)
    ensures r.Ok? ==> r.value == Recorded(file.lines)
    ensures r.Err? ==> r.error < |file.lines| && file.lines[r.error].Raising? && AllLoad(file.lines[..r.error])
  {
    var done: set<K> := {};
    var lines := file.lines;
    for i := 0 to |lines|
      invariant done == Recorded(lines[..i]) && AllLoad(lines[..i])
    {
      assert lines[..i + 1] == lines[..i] + [lines[i]];
      assert lines[i] in lines;
      match lines[i]
      case Blank =>
      case Torn =>
      case Raising => return Err(i);
      case Keyless =>
      case Record(key, _) => done := done + {key};
    }
    assert lines[..|lines|] == lines;
    r := Ok(done);
  }

  /**
   * What appending a line makes of the file.  Behind a last line without newline the new text is
   * glued to it: after white space it is still the new record, after anything else the two together
   * are no JSON and both are lost.
   */
  function Append<K, D>(file: File<K, D>, line: Line<K, D>): File<K, D> {
    var n := |file.lines|;
    if n == 0 || file.ended then File(file.lines + [line], true)
    else File(file.lines[..n - 1] + [if file.lines[n - 1].Blank? then line else Torn], true)
  }

  /** The lines that survive an append: all of them, unless the last one has no newline. */
  function Kept<K, D>(file: File<K, D>): seq<Line<K, D>> {
    if file.lines == [] || file.ended then file.lines else file.lines[..|file.lines| - 1]
  }

  predicate Glues<K, D>(file: File<K, D>) {
    file.lines != [] && !file.ended && !file.lines[|file.lines| - 1].Blank?
  }

  /** Exactly what an append adds to the recorded keys, and what it costs. */
  lemma AppendRecords<K, D>(file: File<K, D>, line: Line<K, D>)
    ensures var r := Append(file, line);
      && r.ended
      && Recorded(r.lines) == Recorded(Kept(file)) + (if line.Record? && !Glues(file) then {line.key} else {})
      && (Loads(file) && !line.Raising? ==> Loads(r))
  {
    var kept, last := Kept(file), if Glues(file) then Torn else line;
    assert Append(file, line).lines == kept + [last] by {
      if file.lines != [] && !file.ended { assert !Glues(file) ==> file.lines[|file.lines| - 1].Blank?; }
    }
    assert forall l :: l in kept + [last] <==> l in kept || l == last;
  }

  /** What a crash can leave behind while one line is appended: nothing yet, a fragment, or the whole line. */
  ghost predicate LeftByCrash<K, D>(file: File<K, D>, line: Line<K, D>, left: File<K, D>) {
    || left == file
    || left == Append(file, line)
    || left == Append(file, Torn).(ended := false)
    || left == Append(file, line).(ended := false)
  }

  /** A crash in the middle of an append never makes a readable file unreadable. */
  lemma CrashLeavesReadable<K, D>(file: File<K, D>, line: Line<K, D>, left: File<K, D>)
    requires Loads(file) && !line.Raising? && LeftByCrash(file, line, left)
    ensures Loads(left)
  {
    AppendRecords(file, line);
    AppendRecords(file, Torn);
  }
}
