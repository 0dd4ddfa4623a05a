/**
 * The Swift-to-Swift migration of migration/migrate.py: header validation of
 * a migrated object against its source, construction of the upload request
 * from a download result, checksum validation, the download and upload loops
 * with their CSV ledger, and the per-id driver. The two Swift services are
 * represented by what they yield: download results, upload results and the
 * header maps `stat` reports. Temporary files are a map from path to content.
 */
module Migration {
  import opened Wrappers
  import SeqFacts

  // ---------------------------------------------------------------------------
  // validate

  /** Headers that differ between two Swift instances by design. */
  const FixedExceptions: seq<string> := ["last-modified", "x-timestamp", "x-trans-id", "x-openstack-request-id", "date"]

  /** The exception list: the caller's, then the fixed ones. */
  function AllExceptions(extra: seq<string>): (r: seq<string>)
    ensures forall k :: k in r <==> k in extra || k in FixedExceptions
  {
    extra + FixedExceptions
  }

  const CwrcContainer := "CWRC"
  const ZipType := "application/zip"

  /** The one tolerated difference: CWRC objects re-typed as zip on upload. */
  predicate CwrcZipExemption(containerSrc: string, key: string, dst: map<string, string>)
  {
    containerSrc == CwrcContainer && key == "content-type" && key in dst && dst[key] == ZipType
  }

  /** What the validator concludes about one source header. */
  datatype Verdict = Excepted | NotPresent | ExpectedCwrcType | Differs | Matches

  predicate IsProblem(v: Verdict)
  {
    v == NotPresent || v == Differs
  }

  /** The verdict on one source header against the destination headers. */
  function Judge(containerSrc: string, exceptions: seq<string>, key: string, srcValue: string,
                 dst: map<string, string>): (v: Verdict)
    ensures v == Excepted <==> key in exceptions
    ensures IsProblem(v) <==>
              key !in exceptions && (key !in dst || (srcValue != dst[key] && !CwrcZipExemption(containerSrc, key, dst)))
    ensures v == NotPresent <==> key !in exceptions && key !in dst
  {
    if key in exceptions then Excepted
    else if key !in dst then NotPresent
    else if containerSrc == CwrcContainer && key == "content-type" && dst[key] == ZipType then ExpectedCwrcType
    else if srcValue != dst[key] then Differs
    else Matches
  }

  /** The error swiftclient raises: message, container and object. */
  datatype SwiftError = SwiftError(message: string, container: string, obj: string)

  /** How Python prints the one-element id list `[id]`. */
  function IdListText(id: string): string
  {
    "['" + id + "']"
  }

  /** The message of a problem verdict. */
  function ProblemMessage(key: string, srcValue: string, dst: map<string, string>): string
  {
    if key !in dst then key + " not present in destination: " + srcValue
    else key + " differs: " + srcValue + " <> " + dst[key]
  }

  /** A source header: key and value, in the order `stat` reports them. */
  datatype Header = Header(key: string, value: string)

  /**
   * The error `validate` raises: the first non-excepted source header that is
   * missing from the destination or differs from it.
   */
  function FirstProblem(containerSrc: string, containerDst: string, id: string, exceptions: seq<string>,
                        src: seq<Header>, dst: map<string, string>): Option<SwiftError>
  {
    if src == [] then None
    else if IsProblem(Judge(containerSrc, exceptions, src[0].key, src[0].value, dst)) then
      Some(SwiftError(ProblemMessage(src[0].key, src[0].value, dst), containerDst, IdListText(id)))
    else FirstProblem(containerSrc, containerDst, id, exceptions, src[1..], dst)
  }

  /** Validation passes exactly when no source header is a problem. */
  lemma {:induction false} FirstProblemNoneIff(containerSrc: string, containerDst: string, id: string,
                                               exceptions: seq<string>, src: seq<Header>, dst: map<string, string>)
    ensures FirstProblem(containerSrc, containerDst, id, exceptions, src, dst).None?
            <==> forall i :: 0 <= i < |src| ==> !IsProblem(Judge(containerSrc, exceptions, src[i].key, src[i].value, dst))
  {
    if src != [] {
      FirstProblemNoneIff(containerSrc, containerDst, id, exceptions, src[1..], dst);
      assert forall i :: 1 <= i < |src| ==> src[i] == src[1..][i - 1];
    }
  }

  /**
   * A failed validation names the first problem header: every header before
   * it passes, and the message says whether it is missing or differs.
   */
  lemma {:induction false} FirstProblemIsFirst(containerSrc: string, containerDst: string, id: string,
                                               exceptions: seq<string>, src: seq<Header>, dst: map<string, string>)
    requires FirstProblem(containerSrc, containerDst, id, exceptions, src, dst).Some?
    ensures exists i :: && 0 <= i < |src|
                        && IsProblem(Judge(containerSrc, exceptions, src[i].key, src[i].value, dst))
                        && (forall j :: 0 <= j < i ==> !IsProblem(Judge(containerSrc, exceptions, src[j].key, src[j].value, dst)))
                        && FirstProblem(containerSrc, containerDst, id, exceptions, src, dst).value
                           == SwiftError(ProblemMessage(src[i].key, src[i].value, dst), containerDst, IdListText(id))
  {
    if !IsProblem(Judge(containerSrc, exceptions, src[0].key, src[0].value, dst)) {
      FirstProblemIsFirst(containerSrc, containerDst, id, exceptions, src[1..], dst);
      var i :| && 0 <= i < |src[1..]|
               && IsProblem(Judge(containerSrc, exceptions, src[1..][i].key, src[1..][i].value, dst))
               && (forall j :: 0 <= j < i ==> !IsProblem(Judge(containerSrc, exceptions, src[1..][j].key, src[1..][j].value, dst)))
               && FirstProblem(containerSrc, containerDst, id, exceptions, src[1..], dst).value
                  == SwiftError(ProblemMessage(src[1..][i].key, src[1..][i].value, dst), containerDst, IdListText(id));
      assert src[i + 1] == src[1..][i];
      assert forall j :: 1 <= j < i + 1 ==> src[j] == src[1..][j - 1];
    }
  }

  /**
   * `validate` for one id: the source headers are checked in order against
   * the destination's and the first problem is raised; keys present only in
   * the destination are never looked at.
   */
  method Validate(containerSrc: string, containerDst: string, id: string, extra: seq<string>,
                  src: seq<Header>, dst: map<string, string>) returns (raised: Option<SwiftError>)
    ensures raised == FirstProblem(containerSrc, containerDst, id, AllExceptions(extra), src, dst)
  {
    var exceptions := extra + FixedExceptions;
    var i := 0;
    while i < |src|
      invariant 0 <= i <= |src|
      invariant FirstProblem(containerSrc, containerDst, id, exceptions, src, dst)
                == FirstProblem(containerSrc, containerDst, id, exceptions, src[i..], dst)
    {
      assert src[i..][1..] == src[i + 1..];
      var key := src[i].key;
      if key !in exceptions {
        if key !in dst {
          return Some(SwiftError(key + " not present in destination: " + src[i].value, containerDst, IdListText(id)));
        } else if containerSrc == CwrcContainer && key == "content-type" && dst[key] == ZipType {
        } else if src[i].value != dst[key] {
          return Some(SwiftError(key + " differs: " + src[i].value + " <> " + dst[key], containerDst, IdListText(id)));
        }
      }
      i := i + 1;
    }
    return None;
  }

  /** Adding keys to the destination alone never makes validation fail that passed before. */
  lemma {:induction false} DestinationOnlyKeysIgnored(containerSrc: string, containerDst: string, id: string,
                                                      exceptions: seq<string>, src: seq<Header>,
                                                      dst: map<string, string>, more: map<string, string>)
    requires forall k :: k in more ==> k !in dst
    requires forall h :: h in src ==> h.key !in more
    ensures FirstProblem(containerSrc, containerDst, id, exceptions, src, dst + more)
            == FirstProblem(containerSrc, containerDst, id, exceptions, src, dst)
  {
    if src != [] {
      assert src[0] in src;
      assert forall h :: h in src[1..] ==> h in src;
      DestinationOnlyKeysIgnored(containerSrc, containerDst, id, exceptions, src[1..], dst, more);
    }
  }

  // The cases of migration/tests/migrate_unit_tests.py for validate.

  lemma CwrcZipContentTypePasses()
    ensures FirstProblem("CWRC", "cwrc", "a:1", AllExceptions([]),
                         [Header("a", "b"), Header("date", "2000"), Header("content-type", "application/x-tar")],
                         map["a" := "b", "date" := "2001", "content-type" := "application/zip"]).None?
  {
    var src := [Header("a", "b"), Header("date", "2000"), Header("content-type", "application/x-tar")];
    assert src[1..][1..][1..] == [];
  }

  lemma MissingHeaderRaises()
    ensures FirstProblem("CWRC", "cwrc", "a:1", AllExceptions([]),
                         [Header("a", "b"), Header("date", "2000"), Header("content-type", "application/x-tar")],
                         map["date" := "2001", "content-type" := "application/zip"])
            == Some(SwiftError("a not present in destination: b", "cwrc", "['a:1']"))
  {
    var dst := map["date" := "2001", "content-type" := "application/zip"];
    assert "a" !in AllExceptions([]) && "a" !in dst;
    MissingMessage(dst);
    assert IdListText("a:1") == "['a:1']";
  }

  lemma MissingMessage(dst: map<string, string>)
    requires "a" !in dst
    ensures ProblemMessage("a", "b", dst) == "a not present in destination: b"
  {
    assert "a" + " not present in destination: " == "a not present in destination: ";
    assert "a not present in destination: " + "b" == "a not present in destination: b";
  }

  lemma DifferingHeaderRaises()
    ensures FirstProblem("CWRC", "cwrc", "a:1", AllExceptions([]),
                         [Header("a", "b"), Header("date", "2000"), Header("content-type", "application/x-tar")],
                         map["a" := "invalid", "date" := "2001", "content-type" := "application/zip"])
            == Some(SwiftError("a differs: b <> invalid", "cwrc", "['a:1']"))
  {
    var dst := map["a" := "invalid", "date" := "2001", "content-type" := "application/zip"];
    assert "a" !in AllExceptions([]) && "a" in dst && "b" != "invalid";
    assert ProblemMessage("a", "b", dst) == "a differs: b <> invalid";
    assert IdListText("a:1") == "['a:1']";
  }

  lemma NonCwrcContentTypeRaises()
    ensures FirstProblem("x", "x", "a:1", AllExceptions([]),
                         [Header("date", "2000"), Header("content-type", "application/x-tar")],
                         map["date" := "2001", "content-type" := "application/zip"])
            == Some(SwiftError("content-type differs: application/x-tar <> application/zip", "x", "['a:1']"))
  {
    var src := [Header("date", "2000"), Header("content-type", "application/x-tar")];
    assert "date" in AllExceptions([]);
    assert "content-type" !in AllExceptions([]);
    assert "x" != CwrcContainer && "application/x-tar" != "application/zip";
    assert src[1..] == [Header("content-type", "application/x-tar")];
    var dst := map["date" := "2001", "content-type" := "application/zip"];
    assert "content-type" in dst && dst["content-type"] == "application/zip";
    NonCwrcMessage(dst);
    assert IdListText("a:1") == "['a:1']";
  }

  lemma NonCwrcMessage(dst: map<string, string>)
    requires "content-type" in dst && dst["content-type"] == "application/zip"
    ensures ProblemMessage("content-type", "application/x-tar", dst)
            == "content-type differs: application/x-tar <> application/zip"
  {
    assert "content-type" + " differs: " == "content-type differs: ";
    assert "content-type differs: " + "application/x-tar" == "content-type differs: application/x-tar";
    assert "content-type differs: application/x-tar" + " <> " == "content-type differs: application/x-tar <> ";
    assert "content-type differs: application/x-tar <> " + "application/zip"
           == "content-type differs: application/x-tar <> application/zip";
  }

  // ---------------------------------------------------------------------------
  // Errors, files and checksums

  /** What the script can raise: a missing dict key, a Swift error, a client error, a missing file. */
  datatype Error = MissingKey(key: string) | Swift(err: SwiftError) | Client(message: string) | NoFile(path: string)

  /** Temporary files: path to content. */
  type Files = map<string, string>

  datatype Checksums = Checksums(md5sum: string, sha256sum: string)

  /**
   * `validate_checksum`: the file's digests, or a client error when its MD5
   * differs from the etag.
   */
  function ValidateChecksum(path: string, etag: string, idText: string, files: Files,
                            md5: string -> string, sha256: string -> string): (r: Result<Checksums, Error>)
    ensures r.Success? <==> path in files && md5(files[path]) == etag
    ensures r.Success? ==> r.value == Checksums(md5(files[path]), sha256(files[path]))
    ensures path !in files ==> r == Failure(NoFile(path))
    ensures path in files && md5(files[path]) != etag ==>
              r == Failure(Client("ERROR: id:[" + idText + "] error: checksum failure [" + path + "] - "
                                  + md5(files[path]) + " <> " + etag))
  {
    if path !in files then Failure(NoFile(path))
    else
      var sums := Checksums(md5(files[path]), sha256(files[path]));
      if sums.md5sum != etag then
        Failure(Client("ERROR: id:[" + idText + "] error: checksum failure [" + path + "] - "
                       + sums.md5sum + " <> " + etag))
      else Success(sums)
  }

  // ---------------------------------------------------------------------------
  // build_swift_upload_object

  /** The headers copied for every container, in the order they are read. */
  const CopiedKeys: seq<string> := ["x-object-meta-project-id", "x-object-meta-aip-version",
                                    "x-object-meta-project", "x-object-meta-promise", "content-type"]

  const LastModKey := "x-object-meta-last-mod-timestamp"

  /** The keys read from the download headers, in order. */
  function RequiredKeys(containerSrc: string): seq<string>
  {
    if containerSrc == CwrcContainer then CopiedKeys + [LastModKey] else CopiedKeys
  }

  /** One result yielded by the source download. */
  datatype DownloadItem = DownloadItem(success: bool, error: string, path: string, obj: string,
                                       headers: map<string, string>, content: string)

  /** A `SwiftUploadObject`: local path, object name and headers. */
  datatype UploadObject = UploadObject(path: string, objectName: string, header: map<string, string>)

  /** The first key of `keys` missing from `m`: the `KeyError` a run of lookups raises. */
  function FirstMissing(keys: seq<string>, m: map<string, string>): (r: Option<string>)
    ensures r.None? <==> forall k :: k in keys ==> k in m
    ensures r.Some? ==> exists i :: 0 <= i < |keys| && keys[i] == r.value && r.value !in m
                                   && forall j :: 0 <= j < i ==> keys[j] in m
  {
    if keys == [] then None
    else if keys[0] !in m then Some(keys[0])
    else
      var r := FirstMissing(keys[1..], m);
      assert forall k :: k in keys ==> k == keys[0] || k in keys[1..];
      if r.Some? then
        assert exists i :: 1 <= i < |keys| && keys[i] == r.value && r.value !in m
                           && forall j :: 0 <= j < i ==> keys[j] in m by {
          var i :| 0 <= i < |keys[1..]| && keys[1..][i] == r.value && r.value !in m
                   && forall j :: 0 <= j < i ==> keys[1..][j] in m;
          assert keys[i + 1] == r.value;
          assert forall j :: 1 <= j < i + 1 ==> keys[j] == keys[1..][j - 1];
        }
        r
      else r
  }

  /** The last-modification key is not one of the copied keys. */
  lemma LastModKeyNotCopied()
    ensures LastModKey !in CopiedKeys
  {
    assert |LastModKey| == 32;
    assert forall k :: k in CopiedKeys ==> |k| < 32;
  }

  /** The four AIP metadata headers and the content type, copied from the download. */
  function CopiedHeader(h: map<string, string>): (base: map<string, string>)
    requires forall k :: k in CopiedKeys ==> k in h
    ensures forall k :: k in base <==> k in CopiedKeys
    ensures forall k :: k in base ==> base[k] == h[k]
  {
    map k | k in CopiedKeys :: h[k]
  }

  /**
   * The upload headers: the four AIP metadata headers and the content type
   * copied from the download; for the CWRC container also the
   * last-modification timestamp, with the content type forced to zip.
   */
  function UploadHeader(h: map<string, string>, containerSrc: string): (header: map<string, string>)
    requires forall k :: k in RequiredKeys(containerSrc) ==> k in h
    ensures forall k :: k in header <==> k in RequiredKeys(containerSrc)
    ensures forall k :: k in CopiedKeys && k != "content-type" ==> header[k] == h[k]
    ensures header["content-type"] == (if containerSrc == CwrcContainer then ZipType else h["content-type"])
    ensures containerSrc == CwrcContainer ==> header[LastModKey] == h[LastModKey]
  {
    assert forall k :: k in CopiedKeys ==> k in RequiredKeys(containerSrc);
    var base := CopiedHeader(h);
    assert "content-type" in CopiedKeys;
    if containerSrc == CwrcContainer then
      LastModKeyNotCopied();
      base[LastModKey := h[LastModKey]]["content-type" := ZipType]
    else base
  }

  /**
   * `build_swift_upload_object`: the upload object for a download result, or
   * the `KeyError` of the first required header that is missing.
   */
  function BuildUploadObject(item: DownloadItem, containerSrc: string): (r: Result<UploadObject, Error>)
    ensures r.Failure? <==> exists k :: k in RequiredKeys(containerSrc) && k !in item.headers
    ensures r.Failure? ==> r.error == MissingKey(FirstMissing(RequiredKeys(containerSrc), item.headers).value)
    ensures r.Success? ==> r.value == UploadObject(item.path, item.obj, UploadHeader(item.headers, containerSrc))
  {
    match FirstMissing(RequiredKeys(containerSrc), item.headers)
    case Some(k) => Failure(MissingKey(k))
    case None => Success(UploadObject(item.path, item.obj, UploadHeader(item.headers, containerSrc)))
  }

  /** The download result of migration/tests/migrate_unit_tests.py. */
  function TestDownloadItem(): DownloadItem
  {
    DownloadItem(true, "", "tests/fixtures/assets/a:1", "a:1",
                 map["etag" := "94813657ffbc76defd96ac21ff4061ca", "x-object-meta-project-id" := "a",
                     "x-object-meta-aip-version" := "b", "x-object-meta-project" := "c",
                     "x-object-meta-promise" := "d", "content-type" := "e",
                     LastModKey := "f"], "")
  }

  /** For CWRC the metadata is copied, the timestamp added and the type forced to zip; elsewhere the type is kept. */
  lemma UploadObjectOfTestItem()
    ensures var r := BuildUploadObject(TestDownloadItem(), "CWRC");
            && r.Success? && r.value.objectName == "a:1" && r.value.path == "tests/fixtures/assets/a:1"
            && (forall k :: k in r.value.header <==> k in RequiredKeys("CWRC"))
            && r.value.header["x-object-meta-project-id"] == "a" && r.value.header["x-object-meta-aip-version"] == "b"
            && r.value.header["x-object-meta-project"] == "c" && r.value.header["x-object-meta-promise"] == "d"
            && r.value.header["content-type"] == "application/zip" && r.value.header[LastModKey] == "f"
    ensures var r := BuildUploadObject(TestDownloadItem(), "");
            && r.Success? && r.value.header["content-type"] == "e" && LastModKey !in r.value.header
  {
    TestItemHeaders();
    LastModKeyNotCopied();
  }

  lemma TestItemHeaders()
    ensures var h := TestDownloadItem().headers;
            && (forall k :: k in RequiredKeys("CWRC") ==> k in h)
            && h["x-object-meta-project-id"] == "a" && h["x-object-meta-aip-version"] == "b"
            && h["x-object-meta-project"] == "c" && h["x-object-meta-promise"] == "d"
            && h["content-type"] == "e" && h[LastModKey] == "f"
  {
  }

  // ---------------------------------------------------------------------------
  // download_from_source

  /**
   * One download result: the upload object built from it or the error
   * raised, and the temporary files afterwards (a successful result has
   * written its file, even when a later check on it fails).
   */
  function DownloadOne(containerSrc: string, id: string, item: DownloadItem, files: Files,
                       md5: string -> string, sha256: string -> string): (Result<UploadObject, Error>, Files)
  {
    if !item.success then (Failure(Client("ERROR: id:[" + IdListText(id) + "] error: " + item.error)), files)
    else
      var files' := files[item.path := item.content];
      match BuildUploadObject(item, containerSrc)
      case Failure(e) => (Failure(e), files')
      case Success(obj) =>
        if "etag" !in item.headers then (Failure(MissingKey("etag")), files')
        else
          match ValidateChecksum(item.path, item.headers["etag"], IdListText(id), files', md5, sha256)
          case Failure(e) => (Failure(e), files')
          case Success(_) => (Success(obj), files')
  }

  /** The items downloaded in order; the first one that fails ends the download. */
  function DownloadAll(containerSrc: string, id: string, items: seq<DownloadItem>, files: Files,
                       md5: string -> string, sha256: string -> string): (r: (Result<seq<UploadObject>, Error>, Files))
    ensures r.0.Success? ==> |r.0.value| == |items|
  {
    if items == [] then (Success([]), files)
    else
      var (first, files') := DownloadOne(containerSrc, id, items[0], files, md5, sha256);
      match first
      case Failure(e) => (Failure(e), files')
      case Success(obj) =>
        var rest := DownloadAll(containerSrc, id, items[1..], files', md5, sha256);
        match rest.0
        case Failure(e) => (Failure(e), rest.1)
        case Success(objs) => (Success([obj] + objs), rest.1)
  }

  /** A failed download item raises a client error, whatever comes after it. */
  lemma {:induction false} FailedItemStopsDownload(containerSrc: string, id: string, items: seq<DownloadItem>,
                                                   files: Files, md5: string -> string, sha256: string -> string, i: nat)
    requires i < |items| && !items[i].success
    ensures DownloadAll(containerSrc, id, items, files, md5, sha256).0.Failure?
  {
    if i > 0 {
      var (first, files') := DownloadOne(containerSrc, id, items[0], files, md5, sha256);
      if first.Success? {
        FailedItemStopsDownload(containerSrc, id, items[1..], files', md5, sha256, i - 1);
      }
    }
  }

  /**
   * A result `download_from_source` accepts: it succeeded, every header
   * `build_swift_upload_object` reads is there, it has an etag, and the MD5 of
   * the file written for it equals that etag.
   */
  predicate DownloadPasses(item: DownloadItem, containerSrc: string, md5: string -> string)
  {
    && item.success && BuildUploadObject(item, containerSrc).Success?
    && "etag" in item.headers && md5(item.content) == item.headers["etag"]
  }

  /**
   * When every result before it is accepted, the first unsuccessful result
   * raises the `ClientException` naming the id and the result's error.
   */
  lemma {:induction false} FirstFailedItemRaises(containerSrc: string, id: string, items: seq<DownloadItem>,
                                                 files: Files, md5: string -> string, sha256: string -> string, i: nat)
    requires i < |items| && !items[i].success
    requires forall j :: 0 <= j < i ==> DownloadPasses(items[j], containerSrc, md5)
    ensures DownloadAll(containerSrc, id, items, files, md5, sha256).0
            == Failure(Client("ERROR: id:[" + IdListText(id) + "] error: " + items[i].error))
    decreases i
  {
    if i > 0 {
      DownloadOnePasses(containerSrc, id, items[0], files, md5, sha256);
      var first := DownloadOne(containerSrc, id, items[0], files, md5, sha256);
      assert forall j :: 0 <= j < i - 1 ==> items[1..][j] == items[j + 1];
      FirstFailedItemRaises(containerSrc, id, items[1..], first.1, md5, sha256, i - 1);
      DownloadPassesOn(containerSrc, id, items, files, md5, sha256);
    } else {
      DownloadOneFails(containerSrc, id, items, files, md5, sha256);
    }
  }

  /** An accepted result is downloaded, whatever files were there before. */
  lemma DownloadOnePasses(containerSrc: string, id: string, item: DownloadItem, files: Files,
                          md5: string -> string, sha256: string -> string)
    requires DownloadPasses(item, containerSrc, md5)
    ensures DownloadOne(containerSrc, id, item, files, md5, sha256).0.Success?
  {
    var files' := files[item.path := item.content];
    assert ValidateChecksum(item.path, item.headers["etag"], IdListText(id), files', md5, sha256).Success?;
  }

  /** A first result that did not succeed is the failure of the whole download. */
  lemma DownloadOneFails(containerSrc: string, id: string, items: seq<DownloadItem>, files: Files,
                         md5: string -> string, sha256: string -> string)
    requires items != [] && !items[0].success
    ensures DownloadAll(containerSrc, id, items, files, md5, sha256).0
            == Failure(Client("ERROR: id:[" + IdListText(id) + "] error: " + items[0].error))
  {
  }

  /** After a downloaded first result, a failing rest is the failure of the whole download. */
  lemma DownloadPassesOn(containerSrc: string, id: string, items: seq<DownloadItem>, files: Files,
                         md5: string -> string, sha256: string -> string)
    requires items != [] && DownloadOne(containerSrc, id, items[0], files, md5, sha256).0.Success?
    ensures var rest := DownloadAll(containerSrc, id, items[1..],
                                    DownloadOne(containerSrc, id, items[0], files, md5, sha256).1, md5, sha256);
            rest.0.Failure? ==> DownloadAll(containerSrc, id, items, files, md5, sha256).0 == rest.0
  {
  }

  /** On success each upload object is the one built from the matching download item. */
  lemma {:induction false} DownloadBuildsEach(containerSrc: string, id: string, items: seq<DownloadItem>,
                                              files: Files, md5: string -> string, sha256: string -> string, i: nat)
    requires DownloadAll(containerSrc, id, items, files, md5, sha256).0.Success? && i < |items|
    ensures BuildUploadObject(items[i], containerSrc)
            == Success(DownloadAll(containerSrc, id, items, files, md5, sha256).0.value[i])
  {
    var first := DownloadOne(containerSrc, id, items[0], files, md5, sha256);
    DownloadAllSucceeded(containerSrc, id, items, files, md5, sha256);
    if i > 0 {
      DownloadBuildsEach(containerSrc, id, items[1..], first.1, md5, sha256, i - 1);
    } else {
      DownloadOneBuilds(containerSrc, id, items[0], files, md5, sha256);
    }
  }

  /** A successful download of a result returns the object `build_swift_upload_object` builds. */
  lemma DownloadOneBuilds(containerSrc: string, id: string, item: DownloadItem, files: Files,
                          md5: string -> string, sha256: string -> string)
    requires DownloadOne(containerSrc, id, item, files, md5, sha256).0.Success?
    ensures BuildUploadObject(item, containerSrc) == DownloadOne(containerSrc, id, item, files, md5, sha256).0
  {
  }

  /** A successful download starts with the first result's object, followed by the rest's. */
  lemma DownloadAllSucceeded(containerSrc: string, id: string, items: seq<DownloadItem>, files: Files,
                             md5: string -> string, sha256: string -> string)
    requires items != [] && DownloadAll(containerSrc, id, items, files, md5, sha256).0.Success?
    ensures var first := DownloadOne(containerSrc, id, items[0], files, md5, sha256);
            var rest := DownloadAll(containerSrc, id, items[1..], first.1, md5, sha256);
            && first.0.Success? && rest.0.Success?
            && DownloadAll(containerSrc, id, items, files, md5, sha256).0.value == [first.0.value] + rest.0.value
  {
  }

  /** The body of the download loop for one result. */
  method HandleDownload(containerSrc: string, id: string, item: DownloadItem, files: Files,
                        md5: string -> string, sha256: string -> string)
    returns (obj: Result<UploadObject, Error>, files': Files)
    ensures (obj, files') == DownloadOne(containerSrc, id, item, files, md5, sha256)
  {
    files' := files;
    if !item.success {
      return Failure(Client("ERROR: id:[" + IdListText(id) + "] error: " + item.error)), files';
    }
    files' := files'[item.path := item.content];
    obj := BuildUploadObject(item, containerSrc);
    if obj.Failure? {
      return;
    }
    if "etag" !in item.headers {
      return Failure(MissingKey("etag")), files';
    }
    var sums := ValidateChecksum(item.path, item.headers["etag"], IdListText(id), files', md5, sha256);
    if sums.Failure? {
      return Failure(sums.error), files';
    }
  }

  /** The objects built before the rest of the download, put in front of its result. */
  function AfterBuilt(built: seq<UploadObject>, rest: (Result<seq<UploadObject>, Error>, Files))
    : (Result<seq<UploadObject>, Error>, Files)
  {
    (if rest.0.Success? then Success(built + rest.0.value) else rest.0, rest.1)
  }

  lemma AfterNothingBuilt(r: (Result<seq<UploadObject>, Error>, Files))
    ensures AfterBuilt([], r) == r
  {
    if r.0.Success? {
      assert [] + r.0.value == r.0.value;
    }
  }

  /** One more item of the download loop: a failure ends it, a success is appended to what was built. */
  lemma DownloadStep(containerSrc: string, id: string, items: seq<DownloadItem>, i: nat, files: Files,
                     md5: string -> string, sha256: string -> string,
                     whole: (Result<seq<UploadObject>, Error>, Files), built: seq<UploadObject>)
    requires i < |items|
    requires whole == AfterBuilt(built, DownloadAll(containerSrc, id, items[i..], files, md5, sha256))
    ensures var first := DownloadOne(containerSrc, id, items[i], files, md5, sha256);
            if first.0.Failure? then whole == (Failure(first.0.error), first.1)
            else whole == AfterBuilt(built + [first.0.value],
                                     DownloadAll(containerSrc, id, items[i + 1..], first.1, md5, sha256))
  {
    assert items[i..][0] == items[i] && items[i..][1..] == items[i + 1..];
    var first := DownloadOne(containerSrc, id, items[i], files, md5, sha256);
    if first.0.Success? {
      var rest := DownloadAll(containerSrc, id, items[i + 1..], first.1, md5, sha256);
      if rest.0.Success? {
        assert built + ([first.0.value] + rest.0.value) == (built + [first.0.value]) + rest.0.value;
      }
    }
  }

  /** `download_from_source`: the loop over the download results. */
  method DownloadFromSource(containerSrc: string, id: string, items: seq<DownloadItem>, files: Files,
                            md5: string -> string, sha256: string -> string)
    returns (objs: Result<seq<UploadObject>, Error>, files': Files)
    ensures (objs, files') == DownloadAll(containerSrc, id, items, files, md5, sha256)
  {
    ghost var whole := DownloadAll(containerSrc, id, items, files, md5, sha256);
    var built: seq<UploadObject> := [];
    files' := files;
    var i := 0;
    assert items[0..] == items;
    AfterNothingBuilt(whole);
    while i < |items|
      invariant 0 <= i <= |items|
      invariant whole == AfterBuilt(built, DownloadAll(containerSrc, id, items[i..], files', md5, sha256))
    {
      DownloadStep(containerSrc, id, items, i, files', md5, sha256, whole, built);
      var obj;
      obj, files' := HandleDownload(containerSrc, id, items[i], files', md5, sha256);
      if obj.Failure? {
        return Failure(obj.error), files';
      }
      built := built + [obj.value];
      i := i + 1;
    }
    assert items[i..] == [];
    assert built + [] == built;
    return Success(built), files';
  }

  // ---------------------------------------------------------------------------
  // The CSV ledger

  /** The ledger columns, in order. */
  const FieldNames: seq<string> := ["id", "md5sum", "sha256sum", "uploaded_by", "last_updated_at",
                                    "container_name", "notes"]

  /** The CSV record `DictWriter.writerow` writes for a row: its values in column order, "" for a missing one. */
  function Record(row: map<string, string>): (r: seq<string>)
    ensures |r| == |FieldNames|
    ensures forall i :: 0 <= i < |FieldNames| && FieldNames[i] in row ==> r[i] == row[FieldNames[i]]
  {
    seq(|FieldNames|, i requires 0 <= i < |FieldNames| =>
      if FieldNames[i] in row then row[FieldNames[i]] else "")
  }

  /** `csv.DictWriter` over the ledger file: the records written so far. */
  class DbWriter {
    var records: seq<seq<string>>

    /** `csv_init`: a writer whose header line is the column names. */
    constructor CsvInit()
      ensures records == [FieldNames]
    {
      records := [FieldNames];
    }

    method WriteRow(row: map<string, string>)
      modifies this
      ensures records == old(records) + [Record(row)]
    {
      records := records + [Record(row)];
    }
  }

  /** `log_upload`: the ledger row of an uploaded object. */
  function LogRow(objectId: string, sums: Checksums, lastModified: string, containerDst: string,
                  uploadedBy: string): (row: map<string, string>)
    ensures forall k :: k in row <==> k in FieldNames
  {
    map["id" := objectId, "md5sum" := sums.md5sum, "sha256sum" := sums.sha256sum, "uploaded_by" := uploadedBy,
        "last_updated_at" := lastModified, "container_name" := containerDst, "notes" := ""]
  }

  /** The record of an uploaded object holds its id, digests, uploader, time and container, in column order. */
  lemma LogRecord(objectId: string, sums: Checksums, lastModified: string, containerDst: string, uploadedBy: string)
    ensures Record(LogRow(objectId, sums, lastModified, containerDst, uploadedBy))
            == [objectId, sums.md5sum, sums.sha256sum, uploadedBy, lastModified, containerDst, ""]
  {
    var row := LogRow(objectId, sums, lastModified, containerDst, uploadedBy);
    LogRowValues(objectId, sums, lastModified, containerDst, uploadedBy);
    var r := Record(row);
    assert forall i :: 0 <= i < |FieldNames| ==> r[i] == row[FieldNames[i]];
    assert r == [r[0], r[1], r[2], r[3], r[4], r[5], r[6]];
  }

  lemma LogRowValues(objectId: string, sums: Checksums, lastModified: string, containerDst: string,
                     uploadedBy: string)
    ensures var row := LogRow(objectId, sums, lastModified, containerDst, uploadedBy);
            && row["id"] == objectId && row["md5sum"] == sums.md5sum && row["sha256sum"] == sums.sha256sum
            && row["uploaded_by"] == uploadedBy && row["last_updated_at"] == lastModified
            && row["container_name"] == containerDst && row["notes"] == ""
  {
  }

  // ---------------------------------------------------------------------------
  // upload_to_destination

  /**
   * One result yielded by the destination upload. `obj` and `forObject` are
   * the optional `object` and `for_object` keys; `headers` the response headers.
   */
  datatype UploadItem = UploadItem(action: string, success: bool, error: string, obj: Option<string>,
                                   forObject: Option<string>, path: string, headers: map<string, string>)

  /** One upload result: the ledger record written (if any) and the files left, or the error raised. */
  function UploadOne(containerDst: string, item: UploadItem, files: Files, uploadedBy: string,
                     md5: string -> string, sha256: string -> string): Result<(Option<seq<string>>, Files), Error>
  {
    if !item.success && item.obj.Some? then Failure(Swift(SwiftError(item.error, containerDst, item.obj.value)))
    else if !item.success && item.forObject.Some? then Failure(MissingKey("object"))
    else if item.action == "upload_object" && item.path in files then
      if "etag" !in item.headers then Failure(MissingKey("etag"))
      else if item.obj.None? then Failure(MissingKey("object"))
      else
        match ValidateChecksum(item.path, item.headers["etag"], item.obj.value, files, md5, sha256)
        case Failure(e) => Failure(e)
        case Success(sums) =>
          if "last-modified" !in item.headers then Failure(MissingKey("last-modified"))
          else
            var row := LogRow(item.obj.value, sums, item.headers["last-modified"], containerDst, uploadedBy);
            Success((Some(Record(row)), files - {item.path}))
    else Success((None, files))
  }

  /** The records written, the files left, and the error that ended the loop, if any. */
  datatype UploadRun = UploadRun(records: seq<seq<string>>, files: Files, raised: Option<Error>)

  function UploadAll(containerDst: string, items: seq<UploadItem>, files: Files, uploadedBy: string,
                     md5: string -> string, sha256: string -> string): (r: UploadRun)
    ensures |r.records| <= |items|
  {
    if items == [] then UploadRun([], files, None)
    else
      match UploadOne(containerDst, items[0], files, uploadedBy, md5, sha256)
      case Failure(e) => UploadRun([], files, Some(e))
      case Success((rec, files')) =>
        var rest := UploadAll(containerDst, items[1..], files', uploadedBy, md5, sha256);
        rest.(records := (if rec.Some? then [rec.value] else []) + rest.records)
  }

  /**
   * A successful upload of an existing temporary file whose MD5 matches the
   * etag writes one ledger record with the object's id and then removes the
   * file; a checksum mismatch writes nothing, keeps the file and raises.
   */
  lemma UploadedFileLoggedThenRemoved(containerDst: string, item: UploadItem, files: Files, uploadedBy: string,
                                      md5: string -> string, sha256: string -> string)
    requires item.success && item.action == "upload_object" && item.path in files && item.obj.Some?
    requires "etag" in item.headers && "last-modified" in item.headers
    ensures var r := UploadOne(containerDst, item, files, uploadedBy, md5, sha256);
            && (md5(files[item.path]) == item.headers["etag"] ==>
                  && r.Success? && r.value.1 == files - {item.path} && item.path !in r.value.1
                  && r.value.0 == Some([item.obj.value, md5(files[item.path]), sha256(files[item.path]), uploadedBy,
                                        item.headers["last-modified"], containerDst, ""]))
            && (md5(files[item.path]) != item.headers["etag"] ==> r.Failure? && r.error.Client?)
  {
    var sums := Checksums(md5(files[item.path]), sha256(files[item.path]));
    LogRecord(item.obj.value, sums, item.headers["last-modified"], containerDst, uploadedBy);
  }

  /** The upload case of migration/tests/migrate_unit_tests.py: the file is gone and the record has the id. */
  lemma UploadOfTestItem(md5: string -> string, sha256: string -> string, content: string)
    requires md5(content) == "94813657ffbc76defd96ac21ff4061ca"
    ensures var item := UploadItem("upload_object", true, "", Some("a:1"), None, "tmp/a:1",
                                   map["etag" := "94813657ffbc76defd96ac21ff4061ca", "last-modified" := "a"]);
            var r := UploadAll("CWRC", [item], map["tmp/a:1" := content], "J", md5, sha256);
            && r.raised.None? && "tmp/a:1" !in r.files && |r.records| == 1 && r.records[0][0] == "a:1"
  {
    var item := UploadItem("upload_object", true, "", Some("a:1"), None, "tmp/a:1",
                           map["etag" := "94813657ffbc76defd96ac21ff4061ca", "last-modified" := "a"]);
    UploadedFileLoggedThenRemoved("CWRC", item, map["tmp/a:1" := content], "J", md5, sha256);
  }

  /** The record list of an optional record. */
  function RecordList(rec: Option<seq<string>>): seq<seq<string>>
  {
    if rec.Some? then [rec.value] else []
  }

  /** The records logged before the rest of the upload, put in front of its run. */
  function AfterLogged(logged: seq<seq<string>>, rest: UploadRun): UploadRun
  {
    rest.(records := logged + rest.records)
  }

  lemma AfterNothingLogged(r: UploadRun)
    ensures AfterLogged([], r) == r
  {
    assert [] + r.records == r.records;
  }

  /** One more item of the upload loop: an error ends it, otherwise its record is logged. */
  lemma UploadStep(containerDst: string, items: seq<UploadItem>, i: nat, files: Files, uploadedBy: string,
                   md5: string -> string, sha256: string -> string, whole: UploadRun, logged: seq<seq<string>>)
    requires i < |items|
    requires whole == AfterLogged(logged, UploadAll(containerDst, items[i..], files, uploadedBy, md5, sha256))
    ensures var first := UploadOne(containerDst, items[i], files, uploadedBy, md5, sha256);
            if first.Failure? then whole == UploadRun(logged, files, Some(first.error))
            else whole == AfterLogged(logged + RecordList(first.value.0),
                                      UploadAll(containerDst, items[i + 1..], first.value.1, uploadedBy, md5, sha256))
  {
    assert items[i..][0] == items[i] && items[i..][1..] == items[i + 1..];
    var first := UploadOne(containerDst, items[i], files, uploadedBy, md5, sha256);
    if first.Failure? {
      assert logged + [] == logged;
    } else {
      var rest := UploadAll(containerDst, items[i + 1..], first.value.1, uploadedBy, md5, sha256);
      assert logged + (RecordList(first.value.0) + rest.records)
             == (logged + RecordList(first.value.0)) + rest.records;
    }
  }

  /** `log_upload` and the checks before it: the body of the upload loop for one result. */
  method HandleUpload(writer: DbWriter, containerDst: string, item: UploadItem, files: Files, uploadedBy: string,
                      md5: string -> string, sha256: string -> string)
    returns (files': Files, raised: Option<Error>)
    modifies writer
    ensures var r := UploadOne(containerDst, item, files, uploadedBy, md5, sha256);
            && (r.Failure? ==> raised == Some(r.error) && files' == files && writer.records == old(writer.records))
            && (r.Success? ==> raised.None? && files' == r.value.1
                               && writer.records == old(writer.records) + RecordList(r.value.0))
  {
    files' := files;
    if !item.success {
      if item.obj.Some? {
        return files', Some(Swift(SwiftError(item.error, containerDst, item.obj.value)));
      } else if item.forObject.Some? {
        return files', Some(MissingKey("object"));
      }
    }
    if item.action == "upload_object" && item.path in files' {
      if "etag" !in item.headers {
        return files', Some(MissingKey("etag"));
      }
      if item.obj.None? {
        return files', Some(MissingKey("object"));
      }
      var sums := ValidateChecksum(item.path, item.headers["etag"], item.obj.value, files', md5, sha256);
      if sums.Failure? {
        return files', Some(sums.error);
      }
      if "last-modified" !in item.headers {
        return files', Some(MissingKey("last-modified"));
      }
      writer.WriteRow(LogRow(item.obj.value, sums.value, item.headers["last-modified"], containerDst, uploadedBy));
      files' := files' - {item.path};
    }
    raised := None;
  }

  /** `upload_to_destination`: the loop over the upload results, writing ledger records. */
  method UploadToDestination(writer: DbWriter, containerDst: string, items: seq<UploadItem>, files: Files,
                             uploadedBy: string, md5: string -> string, sha256: string -> string)
    returns (files': Files, raised: Option<Error>)
    modifies writer
    ensures var r := UploadAll(containerDst, items, files, uploadedBy, md5, sha256);
            writer.records == old(writer.records) + r.records && files' == r.files && raised == r.raised
  {
    ghost var whole := UploadAll(containerDst, items, files, uploadedBy, md5, sha256);
    ghost var logged: seq<seq<string>> := [];
    files' := files;
    var i := 0;
    assert items[0..] == items;
    AfterNothingLogged(whole);
    assert writer.records == old(writer.records) + [];
    while i < |items|
      invariant 0 <= i <= |items|
      invariant whole == AfterLogged(logged, UploadAll(containerDst, items[i..], files', uploadedBy, md5, sha256))
      invariant writer.records == old(writer.records) + logged
    {
      UploadStep(containerDst, items, i, files', uploadedBy, md5, sha256, whole, logged);
      ghost var first := UploadOne(containerDst, items[i], files', uploadedBy, md5, sha256);
      files', raised := HandleUpload(writer, containerDst, items[i], files', uploadedBy, md5, sha256);
      if raised.Some? {
        return;
      }
      logged := logged + RecordList(first.value.0);
      i := i + 1;
    }
    assert items[i..] == [];
    assert logged + [] == logged;
    raised := None;
  }

  // ---------------------------------------------------------------------------
  // process

  /**
   * The characters Python's `str.strip()` removes by default, those for which
   * `str.isspace` holds: the ASCII controls TAB to CR and FS to US, SPACE,
   * NEL, NO-BREAK SPACE and the Unicode space separators and line and
   * paragraph separators.
   */
  predicate IsSpace(c: char)
  {
    || '\t' <= c <= '\r'
    || '\U{1c}' <= c <= ' '
    || c == '\U{85}' || c == '\U{a0}' || c == '\U{1680}'
    || '\U{2000}' <= c <= '\U{200a}'
    || c == '\U{2028}' || c == '\U{2029}' || c == '\U{202f}' || c == '\U{205f}' || c == '\U{3000}'
  }

  function StripLeft(s: string): (r: string)
    ensures |r| <= |s| && r == s[|s| - |r|..]
    ensures r == [] || !IsSpace(r[0])
    ensures forall i :: 0 <= i < |s| - |r| ==> IsSpace(s[i])
  {
    if s != [] && IsSpace(s[0]) then StripLeft(s[1..]) else s
  }

  function StripRight(s: string): (r: string)
    ensures r <= s
    ensures r == [] || !IsSpace(r[|r| - 1])
    ensures forall i :: |r| <= i < |s| ==> IsSpace(s[i])
  {
    if s != [] && IsSpace(s[|s| - 1]) then StripRight(s[..|s| - 1]) else s
  }

  /** `line.strip()`: the line without leading and trailing whitespace. */
  function Strip(line: string): (r: string)
    ensures r == [] || (!IsSpace(r[0]) && !IsSpace(r[|r| - 1]))
    ensures r == [] <==> forall i :: 0 <= i < |line| ==> IsSpace(line[i])
  {
    StripRight(StripLeft(line))
  }

  /** Non-ASCII whitespace is stripped too: NO-BREAK SPACE and IDEOGRAPHIC SPACE around an id. */
  lemma StripUnicodeSpaces()
    ensures Strip("\U{a0}a\U{3000}") == "a"
  {
    var line := "\U{a0}a\U{3000}";
    assert IsSpace(line[0]) && line[1..] == "a\U{3000}";
    assert !IsSpace("a\U{3000}"[0]);
    assert StripLeft(line) == "a\U{3000}";
    assert IsSpace("a\U{3000}"[1]) && "a\U{3000}"[..1] == "a";
    assert !IsSpace("a"[0]);
    assert StripRight("a\U{3000}") == "a";
  }

  /** Everything Swift yields for one id: download results, upload results, and both `stat` header sets. */
  datatype IdJob = IdJob(line: string, downloads: seq<DownloadItem>, uploads: seq<UploadItem>,
                         srcHeaders: seq<Header>, dstHeaders: map<string, string>)

  /** How the loop over ids ends. */
  datatype Ending = AllDone | StoppedOnClientError(message: string) | Raised(error: Error)

  datatype ProcessRun = ProcessRun(records: seq<seq<string>>, files: Files, done: nat, ending: Ending)

  /** The ending for an error: a client error is caught and ends the loop, others propagate. */
  function EndingFor(e: Error): Ending
  {
    if e.Client? then StoppedOnClientError(e.message) else Raised(e)
  }

  datatype Settings = Settings(containerSrc: string, containerDst: string, uploadedBy: string,
                               md5: string -> string, sha256: string -> string)

  /** One id: download, upload, validate. */
  function ProcessOne(st: Settings, job: IdJob, files: Files): (r: (seq<seq<string>>, Files, Option<Error>))
  {
    var id := Strip(job.line);
    var down := DownloadAll(st.containerSrc, id, job.downloads, files, st.md5, st.sha256);
    if down.0.Failure? then ([], down.1, Some(down.0.error))
    else
      var up := UploadAll(st.containerDst, job.uploads, down.1, st.uploadedBy, st.md5, st.sha256);
      if up.raised.Some? then (up.records, up.files, up.raised)
      else
        match FirstProblem(st.containerSrc, st.containerDst, id, AllExceptions([]), job.srcHeaders, job.dstHeaders)
        case Some(e) => (up.records, up.files, Some(Swift(e)))
        case None => (up.records, up.files, None)
  }

  /**
   * The loop over the id list: `done` ids complete; the first error stops the
   * loop, caught when it is a client error and propagated otherwise.
   */
  function ProcessAll(st: Settings, jobs: seq<IdJob>, files: Files): (r: ProcessRun)
    ensures r.done <= |jobs|
    ensures r.ending == AllDone <==> r.done == |jobs|
  {
    if jobs == [] then ProcessRun([], files, 0, AllDone)
    else
      var first := ProcessOne(st, jobs[0], files);
      if first.2.Some? then ProcessRun(first.0, first.1, 0, EndingFor(first.2.value))
      else
        var rest := ProcessAll(st, jobs[1..], first.1);
        ProcessRun(first.0 + rest.records, rest.files, rest.done + 1, rest.ending)
  }

  /** The ids completed before the rest of the loop, put in front of its run. */
  function AfterIds(records: seq<seq<string>>, done: nat, rest: ProcessRun): ProcessRun
  {
    rest.(records := records + rest.records, done := done + rest.done)
  }

  lemma AfterNoIds(r: ProcessRun)
    ensures AfterIds([], 0, r) == r
  {
    assert [] + r.records == r.records;
  }

  /** `ProcessAll` on a non-empty id list, unfolded once. */
  lemma ProcessAllCons(st: Settings, jobs: seq<IdJob>, files: Files, first: (seq<seq<string>>, Files, Option<Error>))
    requires jobs != [] && first == ProcessOne(st, jobs[0], files)
    ensures first.2.Some? ==> ProcessAll(st, jobs, files) == ProcessRun(first.0, first.1, 0, EndingFor(first.2.value))
    ensures first.2.None? ==> var rest := ProcessAll(st, jobs[1..], first.1);
            ProcessAll(st, jobs, files) == ProcessRun(first.0 + rest.records, rest.files, rest.done + 1, rest.ending)
  {
  }

  /**
   * An error stops the loop for good, because the `try` wraps the whole
   * loop: the ids after the one that raised are never processed, so
   * appending more ids changes neither the ledger nor the files.
   */
  lemma {:induction false} StopIgnoresLaterIds(st: Settings, jobs: seq<IdJob>, more: seq<IdJob>, files: Files)
    requires ProcessAll(st, jobs, files).ending != AllDone
    ensures ProcessAll(st, jobs + more, files) == ProcessAll(st, jobs, files)
  {
    assert jobs != [];
    SeqFacts.TailOfAppend(jobs, more);
    var first := ProcessOne(st, jobs[0], files);
    ProcessAllCons(st, jobs, files, first);
    ProcessAllCons(st, jobs + more, files, first);
    if first.2.None? {
      StopIgnoresLaterIds(st, jobs[1..], more, first.1);
    }
  }

  /** One more id of the loop: an error ends it, otherwise the id is done. */
  lemma ProcessStep(st: Settings, jobs: seq<IdJob>, i: nat, files: Files, whole: ProcessRun,
                    records: seq<seq<string>>, first: (seq<seq<string>>, Files, Option<Error>))
    requires i < |jobs| && first == ProcessOne(st, jobs[i], files)
    requires whole == AfterIds(records, i, ProcessAll(st, jobs[i..], files))
    ensures first.2.Some? ==> whole == ProcessRun(records + first.0, first.1, i, EndingFor(first.2.value))
    ensures first.2.None? ==> whole == AfterIds(records + first.0, i + 1, ProcessAll(st, jobs[i + 1..], first.1))
  {
    var tail := jobs[i..];
    assert tail[0] == jobs[i] && tail[1..] == jobs[i + 1..];
    ProcessAllCons(st, tail, files, first);
    if first.2.None? {
      AfterIdsCons(records, i, first.0, ProcessAll(st, jobs[i + 1..], first.1));
    } else {
      AfterIdsStop(records, i, ProcessRun(first.0, first.1, 0, EndingFor(first.2.value)));
    }
  }

  lemma AfterIdsStop(records: seq<seq<string>>, done: nat, stopped: ProcessRun)
    requires stopped.done == 0
    ensures AfterIds(records, done, stopped) == ProcessRun(records + stopped.records, stopped.files, done, stopped.ending)
  {
  }

  lemma AfterIdsCons(records: seq<seq<string>>, done: nat, recs: seq<seq<string>>, rest: ProcessRun)
    ensures AfterIds(records, done, ProcessRun(recs + rest.records, rest.files, rest.done + 1, rest.ending))
            == AfterIds(records + recs, done + 1, rest)
  {
    assert records + (recs + rest.records) == (records + recs) + rest.records;
  }

  /** The body of the loop for one id: download, upload, validate. */
  method HandleId(writer: DbWriter, st: Settings, job: IdJob, files: Files)
    returns (files': Files, raised: Option<Error>)
    modifies writer
    ensures var r := ProcessOne(st, job, files);
            writer.records == old(writer.records) + r.0 && files' == r.1 && raised == r.2
  {
    var id := Strip(job.line);
    var objs, files1 := DownloadFromSource(st.containerSrc, id, job.downloads, files, st.md5, st.sha256);
    if objs.Failure? {
      assert writer.records == old(writer.records) + [];
      return files1, Some(objs.error);
    }
    files', raised := UploadToDestination(writer, st.containerDst, job.uploads, files1, st.uploadedBy,
                                          st.md5, st.sha256);
    if raised.Some? {
      return;
    }
    var problem := Validate(st.containerSrc, st.containerDst, id, [], job.srcHeaders, job.dstHeaders);
    if problem.Some? {
      raised := Some(Swift(problem.value));
    }
  }

  /**
   * One turn of the loop over ids, stated against the whole run: the id's
   * records are added to the ledger, and either the run ends here or it goes
   * on with the next id.
   */
  method ProcessNext(writer: DbWriter, st: Settings, jobs: seq<IdJob>, i: nat, files: Files,
                     ghost whole: ProcessRun, ghost base: seq<seq<string>>, ghost records: seq<seq<string>>)
    returns (files': Files, raised: Option<Error>, ghost records': seq<seq<string>>)
    requires i < |jobs|
    requires whole == AfterIds(records, i, ProcessAll(st, jobs[i..], files))
    requires writer.records == base + records
    modifies writer
    ensures writer.records == base + records'
    ensures raised.Some? ==> whole == ProcessRun(records', files', i, EndingFor(raised.value))
    ensures raised.None? ==> whole == AfterIds(records', i + 1, ProcessAll(st, jobs[i + 1..], files'))
  {
    ghost var first := ProcessOne(st, jobs[i], files);
    ProcessStep(st, jobs, i, files, whole, records, first);
    files', raised := HandleId(writer, st, jobs[i], files);
    SeqFacts.AppendAssoc(base, records, first.0);
    records' := records + first.0;
  }

  /** `process`: each id is downloaded, uploaded and validated in turn. */
  method Process(writer: DbWriter, st: Settings, jobs: seq<IdJob>, files: Files)
    returns (files': Files, done: nat, ending: Ending)
    modifies writer
    ensures var r := ProcessAll(st, jobs, files);
            writer.records == old(writer.records) + r.records && files' == r.files
            && done == r.done && ending == r.ending
  {
    ghost var whole := ProcessAll(st, jobs, files);
    ghost var records: seq<seq<string>> := [];
    files' := files;
    done := 0;
    assert jobs[0..] == jobs;
    AfterNoIds(whole);
    assert writer.records == old(writer.records) + [];
    while done < |jobs|
      invariant 0 <= done <= |jobs|
      invariant whole == AfterIds(records, done, ProcessAll(st, jobs[done..], files'))
      invariant writer.records == old(writer.records) + records
    {
      var raised;
      files', raised, records := ProcessNext(writer, st, jobs, done, files', whole, old(writer.records), records);
      if raised.Some? {
        return files', done, EndingFor(raised.value);
      }
      done := done + 1;
    }
    assert jobs[done..] == [];
    AfterIdsStop(records, done, ProcessRun([], files', 0, AllDone));
    assert records + [] == records;
    ending := AllDone;
  }

}
