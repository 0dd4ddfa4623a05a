/**
 * The per-object loop of cwrc_reconcile.rb: every CWRC object is looked up in
 * Swift under its raw pid and written either to the missing-objects file or
 * to the objects file together with the timestamp Swift holds for it.
 */
module Reconcile {
  import opened Wrappers
  import opened CwrcCommon
  import opened Ingestor

  /** What the reconciler writes for one object. */
  datatype Entry = Missing(pid: string) | Present(pid: string, storedTimestamp: string)

  /**
   * The verdict on one object: missing when Swift has no copy under the raw
   * pid or the CWRC timestamp is strictly later than the stored one. `None`
   * is the comparison raising.
   */
  function Check(parse: string -> Option<int>, container: Container, obj: CwrcObj): Option<Entry>
  {
    var swiftFile := GetFile(container, obj.pid);
    if swiftFile.None? then Some(Missing(obj.pid))
    else
      var stored := MetaValue(swiftFile.value, "timestamp");
      match Later(parse, obj.timestamp, stored)
      case None => None
      case Some(true) => Some(Missing(obj.pid))
      case Some(false) => Some(Present(obj.pid, stored))
  }

  /**
   * An object is reported missing exactly when Swift has no copy under its
   * raw pid or the CWRC timestamp is strictly later than the stored one; a
   * present object carries the stored timestamp; a comparison that raises
   * writes nothing.
   */
  lemma CheckMeaning(parse: string -> Option<int>, container: Container, obj: CwrcObj)
    ensures var r := Check(parse, container, obj);
            && (r.Some? ==> r.value.pid == obj.pid)
            && (r.Some? && r.value.Missing? <==>
                  GetFile(container, obj.pid).None?
                  || Later(parse, obj.timestamp, MetaValue(GetFile(container, obj.pid).value, "timestamp")) == Some(true))
            && (r.Some? && r.value.Present? ==>
                  r.value.storedTimestamp == MetaValue(GetFile(container, obj.pid).value, "timestamp"))
            && (r.None? <==>
                  GetFile(container, obj.pid).Some?
                  && Later(parse, obj.timestamp, MetaValue(GetFile(container, obj.pid).value, "timestamp")).None?)
  {
  }

  /** An object whose Swift copy carries the same timestamp is not reported missing. */
  lemma EqualTimestampIsPresent(parse: string -> Option<int>, container: Container, obj: CwrcObj)
    requires GetFile(container, obj.pid).Some?
    requires MetaValue(GetFile(container, obj.pid).value, "timestamp") == obj.timestamp
    requires ToTime(parse, obj.timestamp).Some?
    ensures Check(parse, container, obj) == Some(Present(obj.pid, obj.timestamp))
  {
    NotLaterThanItself(parse, obj.timestamp);
  }

  /** The entries written for `objs` in order, and whether a comparison aborted the run. */
  function Entries(parse: string -> Option<int>, container: Container, objs: seq<CwrcObj>)
    : (r: (seq<Entry>, bool))
    ensures |r.0| <= |objs|
    ensures !r.1 ==> |r.0| == |objs|
    ensures r.1 ==> |r.0| < |objs| && Check(parse, container, objs[|r.0|]).None?
  {
    if objs == [] then ([], false)
    else
      var front := objs[..|objs| - 1];
      var before := Entries(parse, container, front);
      assert before.1 ==> front[|before.0|] == objs[|before.0|];
      if before.1 then before
      else
        match Check(parse, container, objs[|objs| - 1])
        case None => (before.0, true)
        case Some(e) => (before.0 + [e], false)
  }

  /** Each entry written is the verdict on the object at the same position. */
  lemma {:induction false} EntriesAreVerdicts(parse: string -> Option<int>, container: Container,
                                              objs: seq<CwrcObj>, i: nat)
    requires i < |Entries(parse, container, objs).0|
    ensures Check(parse, container, objs[i]) == Some(Entries(parse, container, objs).0[i])
    decreases |objs|
  {
    assert objs != [];
    var front := objs[..|objs| - 1];
    EntriesExtend(parse, container, objs);
    var before := Entries(parse, container, front);
    var r := Entries(parse, container, objs);
    if i < |before.0| {
      EntriesAreVerdicts(parse, container, front, i);
      assert front[i] == objs[i];
      assert r.0[i] == before.0[i];
      assert Check(parse, container, objs[i]) == Some(r.0[i]);
    } else {
      assert i == |objs| - 1;
      assert Check(parse, container, objs[i]) == Some(r.0[i]);
    }
  }

  /**
   * The entries for a non-empty input are those for all but its last object,
   * followed by at most the last object's verdict.
   */
  lemma EntriesExtend(parse: string -> Option<int>, container: Container, objs: seq<CwrcObj>)
    requires objs != []
    ensures var before := Entries(parse, container, objs[..|objs| - 1]);
            var r := Entries(parse, container, objs);
            && before.0 <= r.0
            && (|r.0| > |before.0| ==>
                  |r.0| == |objs| == |before.0| + 1 && Check(parse, container, objs[|objs| - 1]) == Some(r.0[|objs| - 1]))
  {
  }

  /** The lines of `swift_missing_objs.txt`, one `pid\n` per missing entry. */
  function MissingFile(entries: seq<Entry>): seq<string>
  {
    if entries == [] then []
    else (if entries[0].Missing? then [entries[0].pid + "\n"] else []) + MissingFile(entries[1..])
  }

  /** The lines of `swift_objs.txt`, one `pid timestamp\n` per present entry. */
  function ObjectsFile(entries: seq<Entry>): seq<string>
  {
    if entries == [] then []
    else (if entries[0].Present? then [entries[0].pid + " " + entries[0].storedTimestamp + "\n"] else [])
         + ObjectsFile(entries[1..])
  }

  /** Every entry lands in exactly one of the two files. */
  lemma {:induction false} ExactlyOneFile(entries: seq<Entry>)
    ensures |MissingFile(entries)| + |ObjectsFile(entries)| == |entries|
  {
    if entries != [] {
      ExactlyOneFile(entries[1..]);
    }
  }

  /**
   * The order of the files is the input order: the missing file lists the
   * missing pids as they come, and a missing object's line is in it.
   */
  lemma {:induction false} MissingFileLists(entries: seq<Entry>, i: nat)
    requires i < |entries| && entries[i].Missing?
    ensures entries[i].pid + "\n" in MissingFile(entries)
  {
    if i > 0 {
      MissingFileLists(entries[1..], i - 1);
    }
  }

  /** Likewise a present object's line, with the stored timestamp, is in the objects file. */
  lemma {:induction false} ObjectsFileLists(entries: seq<Entry>, i: nat)
    requires i < |entries| && entries[i].Present?
    ensures entries[i].pid + " " + entries[i].storedTimestamp + "\n" in ObjectsFile(entries)
  {
    if i > 0 {
      ObjectsFileLists(entries[1..], i - 1);
    }
  }

  /** Writing one more entry appends its line to the file it belongs to and nothing to the other. */
  lemma {:induction false} FilesAppend(entries: seq<Entry>, e: Entry)
    ensures MissingFile(entries + [e]) == MissingFile(entries) + (if e.Missing? then [e.pid + "\n"] else [])
    ensures ObjectsFile(entries + [e])
            == ObjectsFile(entries) + (if e.Present? then [e.pid + " " + e.storedTimestamp + "\n"] else [])
  {
    if entries == [] {
      assert [e][1..] == [];
    } else {
      assert (entries + [e])[1..] == entries[1..] + [e];
      FilesAppend(entries[1..], e);
    }
  }

  /** One more object extends the entries by its verdict, or marks the run aborted. */
  lemma EntriesStep(parse: string -> Option<int>, container: Container, objs: seq<CwrcObj>, i: nat)
    requires i < |objs| && !Entries(parse, container, objs[..i]).1
    ensures Entries(parse, container, objs[..i + 1])
            == match Check(parse, container, objs[i])
               case None => (Entries(parse, container, objs[..i]).0, true)
               case Some(e) => (Entries(parse, container, objs[..i]).0 + [e], false)
  {
    assert objs[..i + 1][..i] == objs[..i];
  }

  /**
   * The loop over all objects: the two files receive the lines of the entries
   * in input order, and the loop stops at the first comparison that raises.
   */
  method Reconcile(parse: string -> Option<int>, container: Container, objs: seq<CwrcObj>)
    returns (missing: seq<string>, present: seq<string>, aborted: bool)
    ensures var r := Entries(parse, container, objs);
            missing == MissingFile(r.0) && present == ObjectsFile(r.0) && aborted == r.1
  {
    missing, present, aborted := [], [], false;
    ghost var written: seq<Entry> := [];
    var i := 0;
    while i < |objs|
      invariant 0 <= i <= |objs|
      invariant Entries(parse, container, objs[..i]) == (written, false)
      invariant missing == MissingFile(written) && present == ObjectsFile(written)
    {
      var obj := objs[i];
      EntriesStep(parse, container, objs, i);
      var swiftFile := GetFile(container, obj.pid);
      var verdict: Entry;
      if swiftFile.None? {
        verdict := Missing(obj.pid);
      } else {
        var later := Later(parse, obj.timestamp, MetaValue(swiftFile.value, "timestamp"));
        if later.None? {
          AbortedStays(parse, container, objs, i + 1);
          return missing, present, true;
        }
        verdict := if later.value then Missing(obj.pid)
                   else Present(obj.pid, MetaValue(swiftFile.value, "timestamp"));
      }
      assert Check(parse, container, obj) == Some(verdict);
      if verdict.Missing? {
        missing := missing + [obj.pid + "\n"];
      } else {
        present := present + [obj.pid + " " + verdict.storedTimestamp + "\n"];
      }
      FilesAppend(written, verdict);
      written := written + [verdict];
      i := i + 1;
    }
    assert objs[..i] == objs;
  }

  /** Once a prefix has aborted, the whole run has aborted with the same entries. */
  lemma {:induction false} AbortedStays(parse: string -> Option<int>, container: Container,
                                        objs: seq<CwrcObj>, n: nat)
    requires 0 < n <= |objs| && Entries(parse, container, objs[..n]).1
    ensures Entries(parse, container, objs) == Entries(parse, container, objs[..n])
    decreases |objs| - n
  {
    if n < |objs| {
      assert objs[..n + 1][..n] == objs[..n];
      AbortedStays(parse, container, objs, n + 1);
    } else {
      assert objs[..n] == objs;
    }
  }
}
