/**
 * The earlier migration script, migrate.py at the top of the repository. It
 * validates with the same rules as migration/migrate.py and builds the same
 * upload headers (both are reused from `Migration`), but it verifies no
 * checksum, keeps no ledger, and raises its upload errors with Python's
 * builtin `id` function as the object.
 */
module LegacyMigrate {
  import opened Wrappers
  import Migration
  import SeqFacts

  /**
   * The object carried by the `SwiftError`s of the upload loop: the name `id`
   * there is not the id being migrated but Python's builtin function, which
   * prints as this text.
   */
  const BuiltinId := "<built-in function id>"

  // ---------------------------------------------------------------------------
  // download_from_source

  /**
   * One download result: a result that did not succeed raises a client
   * error; otherwise its file is written and the upload object is built
   * inline, a missing header raising its `KeyError`.
   */
  function DownloadOne(containerSrc: string, id: string, item: Migration.DownloadItem, files: Migration.Files)
    : (Result<Migration.UploadObject, Migration.Error>, Migration.Files)
  {
    if !item.success then
      (Failure(Migration.Client("ERROR: id:[" + Migration.IdListText(id) + "] error: " + item.error)), files)
    else (Migration.BuildUploadObject(item, containerSrc), files[item.path := item.content])
  }

  /** The items downloaded in order; the first one that fails ends the download. */
  function DownloadAll(containerSrc: string, id: string, items: seq<Migration.DownloadItem>, files: Migration.Files)
    : (r: (Result<seq<Migration.UploadObject>, Migration.Error>, Migration.Files))
    ensures r.0.Success? ==> |r.0.value| == |items|
  {
    if items == [] then (Success([]), files)
    else
      var first := DownloadOne(containerSrc, id, items[0], files);
      if first.0.Failure? then (Failure(first.0.error), first.1)
      else
        var rest := DownloadAll(containerSrc, id, items[1..], first.1);
        if rest.0.Failure? then rest
        else (Success([first.0.value] + rest.0.value), rest.1)
  }

  /**
   * A result that did not succeed raises a client error naming the id, and
   * no item after it is processed.
   */
  lemma {:induction false} UnsuccessfulItemRaises(containerSrc: string, id: string,
                                                  items: seq<Migration.DownloadItem>, files: Migration.Files, j: nat)
    requires j < |items| && !items[j].success
    requires forall i :: 0 <= i < j ==> items[i].success && Migration.BuildUploadObject(items[i], containerSrc).Success?
    ensures DownloadAll(containerSrc, id, items, files).0
            == Failure(Migration.Client("ERROR: id:[" + Migration.IdListText(id) + "] error: " + items[j].error))
    decreases j
  {
    if j > 0 {
      DownloadOnePasses(containerSrc, id, items[0], files);
      var first := DownloadOne(containerSrc, id, items[0], files);
      assert forall i :: 0 <= i < j - 1 ==> items[1..][i] == items[i + 1];
      UnsuccessfulItemRaises(containerSrc, id, items[1..], first.1, j - 1);
      DownloadPassesOn(containerSrc, id, items, files);
    } else {
      DownloadOneFails(containerSrc, id, items, files);
    }
  }

  /** A successful result whose headers are all there is downloaded. */
  lemma DownloadOnePasses(containerSrc: string, id: string, item: Migration.DownloadItem, files: Migration.Files)
    requires item.success && Migration.BuildUploadObject(item, containerSrc).Success?
    ensures DownloadOne(containerSrc, id, item, files).0.Success?
  {
  }

  /** A first result that did not succeed is the failure of the whole download. */
  lemma DownloadOneFails(containerSrc: string, id: string, items: seq<Migration.DownloadItem>, files: Migration.Files)
    requires items != [] && !items[0].success
    ensures DownloadAll(containerSrc, id, items, files).0
            == Failure(Migration.Client("ERROR: id:[" + Migration.IdListText(id) + "] error: " + items[0].error))
  {
  }

  /** After a successful first item, a failing rest of the download is the failure of the whole. */
  lemma DownloadPassesOn(containerSrc: string, id: string, items: seq<Migration.DownloadItem>, files: Migration.Files)
    requires items != [] && DownloadOne(containerSrc, id, items[0], files).0.Success?
    ensures var rest := DownloadAll(containerSrc, id, items[1..], DownloadOne(containerSrc, id, items[0], files).1);
            rest.0.Failure? ==> DownloadAll(containerSrc, id, items, files) == rest
  {
  }

  /** A successful download yields, for each item in order, the object `build_swift_upload_object` builds. */
  lemma {:induction false} DownloadBuildsEach(containerSrc: string, id: string,
                                              items: seq<Migration.DownloadItem>, files: Migration.Files)
    ensures var r := DownloadAll(containerSrc, id, items, files);
            r.0.Success? ==> forall i :: 0 <= i < |items| ==>
              Migration.BuildUploadObject(items[i], containerSrc) == Success(r.0.value[i])
  {
    if items != [] {
      var first := DownloadOne(containerSrc, id, items[0], files);
      DownloadBuildsEach(containerSrc, id, items[1..], first.1);
      var r := DownloadAll(containerSrc, id, items, files);
      if r.0.Success? {
        forall i | 0 <= i < |items|
          ensures Migration.BuildUploadObject(items[i], containerSrc) == Success(r.0.value[i])
        {
          if i > 0 {
            assert items[i] == items[1..][i - 1];
          }
        }
      }
    }
  }

  /**
   * The two scripts build the same upload object from a download result:
   * whenever migration/migrate.py accepts an item, this script builds the
   * same object and writes the same file; the newer script only adds the
   * checksum test.
   */
  lemma SameObjectAsMigration(containerSrc: string, id: string, item: Migration.DownloadItem,
                              files: Migration.Files, md5: string -> string, sha256: string -> string)
    ensures var newer := Migration.DownloadOne(containerSrc, id, item, files, md5, sha256);
            newer.0.Success? ==> DownloadOne(containerSrc, id, item, files) == newer
  {
  }

  /** The objects built before the rest of the download, put in front of its result. */
  lemma DownloadStep(containerSrc: string, id: string, items: seq<Migration.DownloadItem>, i: nat,
                     files: Migration.Files, whole: (Result<seq<Migration.UploadObject>, Migration.Error>, Migration.Files),
                     built: seq<Migration.UploadObject>)
    requires i < |items|
    requires whole == Migration.AfterBuilt(built, DownloadAll(containerSrc, id, items[i..], files))
    ensures var first := DownloadOne(containerSrc, id, items[i], files);
            if first.0.Failure? then whole == (Failure(first.0.error), first.1)
            else whole == Migration.AfterBuilt(built + [first.0.value],
                                               DownloadAll(containerSrc, id, items[i + 1..], first.1))
  {
    assert items[i..][0] == items[i] && items[i..][1..] == items[i + 1..];
    var first := DownloadOne(containerSrc, id, items[i], files);
    if first.0.Success? {
      var rest := DownloadAll(containerSrc, id, items[i + 1..], first.1);
      if rest.0.Success? {
        assert built + ([first.0.value] + rest.0.value) == (built + [first.0.value]) + rest.0.value;
      }
    }
  }

  /** `download_from_source`: the loop over the download results, building each upload object inline. */
  method DownloadFromSource(containerSrc: string, id: string, items: seq<Migration.DownloadItem>,
                            files: Migration.Files)
    returns (objs: Result<seq<Migration.UploadObject>, Migration.Error>, files': Migration.Files)
    ensures (objs, files') == DownloadAll(containerSrc, id, items, files)
  {
    ghost var whole := DownloadAll(containerSrc, id, items, files);
    var built: seq<Migration.UploadObject> := [];
    files' := files;
    var i := 0;
    assert items[0..] == items;
    Migration.AfterNothingBuilt(whole);
    while i < |items|
      invariant 0 <= i <= |items|
      invariant whole == Migration.AfterBuilt(built, DownloadAll(containerSrc, id, items[i..], files'))
    {
      DownloadStep(containerSrc, id, items, i, files', whole, built);
      var item := items[i];
      if !item.success {
        return Failure(Migration.Client("ERROR: id:[" + Migration.IdListText(id) + "] error: " + item.error)), files';
      }
      files' := files'[item.path := item.content];
      var obj := Migration.BuildUploadObject(item, containerSrc);
      if obj.Failure? {
        return Failure(obj.error), files';
      }
      built := built + [obj.value];
      i := i + 1;
    }
    assert items[i..] == [];
    assert built + [] == built;
    return Success(built), files';
  }

  // ---------------------------------------------------------------------------
  // upload_to_destination

  /**
   * One upload result: a failed result carrying `object` or `for_object`
   * raises a `SwiftError` whose object is the builtin `id`; a failed result
   * with neither goes on. An `upload_object` result whose file exists has
   * the file removed.
   */
  function UploadOne(containerDst: string, item: Migration.UploadItem, files: Migration.Files)
    : (r: Result<Migration.Files, Migration.Error>)
    ensures r.Failure? <==> !item.success && (item.obj.Some? || item.forObject.Some?)
    ensures r.Failure? ==> r.error == Migration.Swift(Migration.SwiftError(item.error, containerDst, BuiltinId))
    ensures r.Success? ==> r.value == if item.action == "upload_object" then files - {item.path} else files
  {
    if !item.success && (item.obj.Some? || item.forObject.Some?) then
      Failure(Migration.Swift(Migration.SwiftError(item.error, containerDst, BuiltinId)))
    else if item.action == "upload_object" && item.path in files then Success(files - {item.path})
    else Success(files)
  }

  /** The files left and the error that ended the loop, if any. */
  datatype UploadRun = UploadRun(files: Migration.Files, raised: Option<Migration.Error>)

  function UploadAll(containerDst: string, items: seq<Migration.UploadItem>, files: Migration.Files): UploadRun
  {
    if items == [] then UploadRun(files, None)
    else
      match UploadOne(containerDst, items[0], files)
      case Failure(e) => UploadRun(files, Some(e))
      case Success(files') => UploadAll(containerDst, items[1..], files')
  }

  /** The paths of the `upload_object` results among the first `n`. */
  function UploadedPaths(items: seq<Migration.UploadItem>, n: nat): set<string>
    requires n <= |items|
  {
    set i | 0 <= i < n && items[i].action == "upload_object" :: items[i].path
  }

  /** The index of the first result that raises, or `|items|` when none does. */
  function FirstRaising(items: seq<Migration.UploadItem>): (n: nat)
    ensures n <= |items|
    ensures forall i :: 0 <= i < n ==> items[i].success || (items[i].obj.None? && items[i].forObject.None?)
    ensures n < |items| ==> !items[n].success && (items[n].obj.Some? || items[n].forObject.Some?)
  {
    if items == [] then 0
    else if !items[0].success && (items[0].obj.Some? || items[0].forObject.Some?) then 0
    else 1 + FirstRaising(items[1..])
  }

  /**
   * The upload loop raises exactly at the first failed result that carries
   * `object` or `for_object`, and has then removed the temporary file of
   * every `upload_object` result before it; when nothing raises, every
   * `upload_object` result's file is gone and no other file is touched.
   */
  lemma {:induction false} UploadRemovesUploadedFiles(containerDst: string, items: seq<Migration.UploadItem>,
                                                       files: Migration.Files)
    ensures var r := UploadAll(containerDst, items, files);
            var n := FirstRaising(items);
            && (r.raised.None? <==> n == |items|)
            && (r.raised.Some? ==> r.raised.value
                                    == Migration.Swift(Migration.SwiftError(items[n].error, containerDst, BuiltinId)))
            && r.files == files - UploadedPaths(items, n)
  {
    if items == [] {
      assert UploadedPaths(items, 0) == {};
    } else {
      var n := FirstRaising(items);
      match UploadOne(containerDst, items[0], files)
      case Failure(e) =>
        assert UploadedPaths(items, 0) == {};
      case Success(files') =>
        UploadRemovesUploadedFiles(containerDst, items[1..], files');
        assert n == 1 + FirstRaising(items[1..]);
        UploadedPathsCons(items, n);
        var head: set<string> := if items[0].action == "upload_object" then {items[0].path} else {};
        assert files' == files - head;
        assert (files - head) - UploadedPaths(items[1..], n - 1) == files - (head + UploadedPaths(items[1..], n - 1));
    }
  }

  /** The paths among the first `n` results are the first one's, if it uploaded, and those among the next `n - 1`. */
  lemma UploadedPathsCons(items: seq<Migration.UploadItem>, n: nat)
    requires 0 < n <= |items|
    ensures UploadedPaths(items, n)
            == (if items[0].action == "upload_object" then {items[0].path} else {}) + UploadedPaths(items[1..], n - 1)
  {
    var tail := UploadedPaths(items[1..], n - 1);
    forall p | p in UploadedPaths(items, n)
      ensures p in (if items[0].action == "upload_object" then {items[0].path} else {}) + tail
    {
      var i :| 0 <= i < n && items[i].action == "upload_object" && items[i].path == p;
      if i > 0 {
        assert items[1..][i - 1] == items[i];
      }
    }
    forall p | p in tail ensures p in UploadedPaths(items, n) {
      var i :| 0 <= i < n - 1 && items[1..][i].action == "upload_object" && items[1..][i].path == p;
      assert items[i + 1] == items[1..][i];
    }
  }

  /** `upload_to_destination`: the loop over the upload results, removing temporary files. */
  method UploadToDestination(containerDst: string, items: seq<Migration.UploadItem>, files: Migration.Files)
    returns (files': Migration.Files, raised: Option<Migration.Error>)
    ensures UploadRun(files', raised) == UploadAll(containerDst, items, files)
  {
    files' := files;
    var i := 0;
    assert items[0..] == items;
    while i < |items|
      invariant 0 <= i <= |items|
      invariant UploadAll(containerDst, items, files) == UploadAll(containerDst, items[i..], files')
    {
      var item := items[i];
      assert items[i..][0] == item && items[i..][1..] == items[i + 1..];
      if !item.success {
        if item.obj.Some? || item.forObject.Some? {
          return files', Some(Migration.Swift(Migration.SwiftError(item.error, containerDst, BuiltinId)));
        }
      }
      if item.action == "upload_object" && item.path in files' {
        files' := files' - {item.path};
      }
      i := i + 1;
    }
    assert items[i..] == [];
    raised := None;
  }

  // ---------------------------------------------------------------------------
  // process

  /** The files left, the number of ids completed, and how the loop ended. */
  datatype ProcessRun = ProcessRun(files: Migration.Files, done: nat, ending: Migration.Ending)

  /** One id: download, upload, validate; the files left and the error raised, if any. */
  function ProcessOne(containerSrc: string, containerDst: string, job: Migration.IdJob, files: Migration.Files)
    : (Migration.Files, Option<Migration.Error>)
  {
    var id := Migration.Strip(job.line);
    var down := DownloadAll(containerSrc, id, job.downloads, files);
    if down.0.Failure? then (down.1, Some(down.0.error))
    else
      var up := UploadAll(containerDst, job.uploads, down.1);
      if up.raised.Some? then (up.files, up.raised)
      else
        match Migration.FirstProblem(containerSrc, containerDst, id, Migration.AllExceptions([]),
                                     job.srcHeaders, job.dstHeaders)
        case Some(e) => (up.files, Some(Migration.Swift(e)))
        case None => (up.files, None)
  }

  /**
   * The loop over the id list, inside one `try`: the first error stops the
   * loop, caught when it is a client error and propagated otherwise.
   */
  function ProcessAll(containerSrc: string, containerDst: string, jobs: seq<Migration.IdJob>,
                      files: Migration.Files): (r: ProcessRun)
    ensures r.done <= |jobs|
    ensures r.ending == Migration.AllDone <==> r.done == |jobs|
  {
    if jobs == [] then ProcessRun(files, 0, Migration.AllDone)
    else
      var first := ProcessOne(containerSrc, containerDst, jobs[0], files);
      if first.1.Some? then ProcessRun(first.0, 0, Migration.EndingFor(first.1.value))
      else
        var rest := ProcessAll(containerSrc, containerDst, jobs[1..], first.0);
        rest.(done := rest.done + 1)
  }

  /**
   * An error stops the loop for good: the ids after the one that raised are
   * never processed, so appending more ids changes nothing.
   */
  lemma {:induction false} StopIgnoresLaterIds(containerSrc: string, containerDst: string,
                                               jobs: seq<Migration.IdJob>, more: seq<Migration.IdJob>,
                                               files: Migration.Files)
    requires ProcessAll(containerSrc, containerDst, jobs, files).ending != Migration.AllDone
    ensures ProcessAll(containerSrc, containerDst, jobs + more, files)
            == ProcessAll(containerSrc, containerDst, jobs, files)
  {
    assert jobs != [];
    SeqFacts.TailOfAppend(jobs, more);
    var first := ProcessOne(containerSrc, containerDst, jobs[0], files);
    ProcessAllCons(containerSrc, containerDst, jobs, files, first);
    ProcessAllCons(containerSrc, containerDst, jobs + more, files, first);
    if first.1.None? {
      StopIgnoresLaterIds(containerSrc, containerDst, jobs[1..], more, first.0);
    }
  }

  /** `ProcessAll` on a non-empty id list, unfolded once. */
  lemma ProcessAllCons(containerSrc: string, containerDst: string, jobs: seq<Migration.IdJob>,
                       files: Migration.Files, first: (Migration.Files, Option<Migration.Error>))
    requires jobs != [] && first == ProcessOne(containerSrc, containerDst, jobs[0], files)
    ensures first.1.Some? ==> ProcessAll(containerSrc, containerDst, jobs, files)
                              == ProcessRun(first.0, 0, Migration.EndingFor(first.1.value))
    ensures first.1.None? ==> ProcessAll(containerSrc, containerDst, jobs, files)
                              == AfterIds(1, ProcessAll(containerSrc, containerDst, jobs[1..], first.0))
  {
  }

  /** One more id of the loop: an error ends it, otherwise the id is done. */
  lemma ProcessStep(containerSrc: string, containerDst: string, jobs: seq<Migration.IdJob>, i: nat,
                    files: Migration.Files, whole: ProcessRun, first: (Migration.Files, Option<Migration.Error>))
    requires i < |jobs| && first == ProcessOne(containerSrc, containerDst, jobs[i], files)
    requires whole == AfterIds(i, ProcessAll(containerSrc, containerDst, jobs[i..], files))
    ensures first.1.Some? ==> whole == ProcessRun(first.0, i, Migration.EndingFor(first.1.value))
    ensures first.1.None? ==> whole == AfterIds(i + 1, ProcessAll(containerSrc, containerDst, jobs[i + 1..], first.0))
  {
    var tail := jobs[i..];
    assert tail[0] == jobs[i] && tail[1..] == jobs[i + 1..];
  }

  /** The ids completed before the rest of the loop, counted in front of its run. */
  function AfterIds(done: nat, rest: ProcessRun): ProcessRun
  {
    rest.(done := done + rest.done)
  }

  /** The body of the loop for one id: download, upload, validate. */
  method HandleId(containerSrc: string, containerDst: string, job: Migration.IdJob, files: Migration.Files)
    returns (files': Migration.Files, raised: Option<Migration.Error>)
    ensures (files', raised) == ProcessOne(containerSrc, containerDst, job, files)
  {
    var id := Migration.Strip(job.line);
    var objs;
    objs, files' := DownloadFromSource(containerSrc, id, job.downloads, files);
    if objs.Failure? {
      return files', Some(objs.error);
    }
    files', raised := UploadToDestination(containerDst, job.uploads, files');
    if raised.Some? {
      return;
    }
    var problem := Migration.Validate(containerSrc, containerDst, id, [], job.srcHeaders, job.dstHeaders);
    if problem.Some? {
      raised := Some(Migration.Swift(problem.value));
    }
  }

  /** `process`: each id is downloaded, uploaded and validated in turn. */
  method Process(containerSrc: string, containerDst: string, jobs: seq<Migration.IdJob>, files: Migration.Files)
    returns (files': Migration.Files, done: nat, ending: Migration.Ending)
    ensures ProcessRun(files', done, ending) == ProcessAll(containerSrc, containerDst, jobs, files)
  {
    ghost var whole := ProcessAll(containerSrc, containerDst, jobs, files);
    files' := files;
    done := 0;
    assert jobs[0..] == jobs;
    assert whole == AfterIds(0, whole);
    while done < |jobs|
      invariant 0 <= done <= |jobs|
      invariant whole == AfterIds(done, ProcessAll(containerSrc, containerDst, jobs[done..], files'))
    {
      ghost var first := ProcessOne(containerSrc, containerDst, jobs[done], files');
      ProcessStep(containerSrc, containerDst, jobs, done, files', whole, first);
      var raised;
      files', raised := HandleId(containerSrc, containerDst, jobs[done], files');
      if raised.Some? {
        return files', done, Migration.EndingFor(raised.value);
      }
      done := done + 1;
    }
    assert jobs[done..] == [];
    ending := Migration.AllDone;
  }
}
