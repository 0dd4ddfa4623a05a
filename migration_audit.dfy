/**
 * migration/migrate_audit.py: the audit of a finished migration. Its
 * validator applies the rules of migration/migrate.py but logs every verdict
 * instead of raising, and its loop over the id list sleeps one second after
 * each id. `stat` results are inputs; a result without headers is the
 * `KeyError` that ends the loop.
 */
module MigrationAudit {
  import opened Wrappers
  import Migration
  import SeqFacts

  /** The two logging levels the audit writes at. */
  datatype LogLevel = InfoLevel | ErrorLevel

  datatype LogEntry = LogEntry(level: LogLevel, message: string)

  /** The head of every per-key message: the id list and the key. */
  function KeyPrefix(id: string, key: string): string
  {
    "id:[" + Migration.IdListText(id) + "] key:[" + key + "]"
  }

  /** What `str` of the `KeyError` for a stat result without headers prints. */
  const HeadersKeyError := "'headers'"

  // ---------------------------------------------------------------------------
  // validate

  /**
   * The log entries for one source header: none for an excepted key, an
   * error for a key missing from the destination or differing from it, and
   * an informational entry for a match or the tolerated CWRC zip type.
   */
  function KeyLog(containerSrc: string, id: string, exceptions: seq<string>, h: Migration.Header,
                  dst: map<string, string>): (r: seq<LogEntry>)
    ensures |r| == (if h.key in exceptions then 0 else 1)
    ensures |r| == 1 ==> (r[0].level == ErrorLevel
                          <==> Migration.IsProblem(Migration.Judge(containerSrc, exceptions, h.key, h.value, dst)))
  {
    match Migration.Judge(containerSrc, exceptions, h.key, h.value, dst)
    case Excepted => []
    case NotPresent => [LogEntry(ErrorLevel, KeyPrefix(id, h.key) + " not present in destination: " + h.value)]
    case ExpectedCwrcType =>
      [LogEntry(InfoLevel, KeyPrefix(id, h.key) + " differs; this is expected in CWRC due to bulk change - destination "
                           + dst[h.key])]
    case Differs => [LogEntry(ErrorLevel, KeyPrefix(id, h.key) + " differs - " + h.value + " <> " + dst[h.key])]
    case Matches => [LogEntry(InfoLevel, KeyPrefix(id, h.key) + " matches - " + h.value + " == " + dst[h.key])]
  }

  /** The log of checking the source headers in order against the destination's. */
  function AuditLog(containerSrc: string, id: string, exceptions: seq<string>, src: seq<Migration.Header>,
                    dst: map<string, string>): seq<LogEntry>
  {
    if src == [] then []
    else KeyLog(containerSrc, id, exceptions, src[0], dst) + AuditLog(containerSrc, id, exceptions, src[1..], dst)
  }

  /**
   * Checking goes on after a problem: the log of a header list is the log of
   * its first part followed by the log of the rest.
   */
  lemma {:induction false} AuditLogAppend(containerSrc: string, id: string, exceptions: seq<string>,
                                          a: seq<Migration.Header>, b: seq<Migration.Header>, dst: map<string, string>)
    ensures AuditLog(containerSrc, id, exceptions, a + b, dst)
            == AuditLog(containerSrc, id, exceptions, a, dst) + AuditLog(containerSrc, id, exceptions, b, dst)
  {
    if a == [] {
      assert a + b == b;
    } else {
      SeqFacts.TailOfAppend(a, b);
      AuditLogAppend(containerSrc, id, exceptions, a[1..], b, dst);
      SeqFacts.AppendAssoc(KeyLog(containerSrc, id, exceptions, a[0], dst),
                           AuditLog(containerSrc, id, exceptions, a[1..], dst),
                           AuditLog(containerSrc, id, exceptions, b, dst));
    }
  }

  /** Every non-excepted source header gets exactly one entry. */
  lemma {:induction false} OneEntryPerCheckedKey(containerSrc: string, id: string, exceptions: seq<string>,
                                                 src: seq<Migration.Header>, dst: map<string, string>)
    ensures |AuditLog(containerSrc, id, exceptions, src, dst)| == |CheckedKeys(exceptions, src)|
  {
    if src != [] {
      OneEntryPerCheckedKey(containerSrc, id, exceptions, src[1..], dst);
    }
  }

  /** The source headers that are not excepted, in order. */
  function CheckedKeys(exceptions: seq<string>, src: seq<Migration.Header>): seq<string>
  {
    if src == [] then []
    else (if src[0].key in exceptions then [] else [src[0].key]) + CheckedKeys(exceptions, src[1..])
  }

  /** The log holds an entry at error level. */
  predicate HasError(log: seq<LogEntry>)
  {
    exists i :: 0 <= i < |log| && log[i].level == ErrorLevel
  }

  lemma HasErrorAppend(a: seq<LogEntry>, b: seq<LogEntry>)
    ensures HasError(a + b) <==> HasError(a) || HasError(b)
  {
    if HasError(b) {
      var i :| 0 <= i < |b| && b[i].level == ErrorLevel;
      assert (a + b)[|a| + i] == b[i];
    }
    if HasError(a) {
      var i :| 0 <= i < |a| && a[i].level == ErrorLevel;
      assert (a + b)[i] == a[i];
    }
  }

  /** The entries of one header hold an error exactly when the header is a problem. */
  lemma KeyLogHasError(containerSrc: string, id: string, exceptions: seq<string>, h: Migration.Header,
                       dst: map<string, string>)
    ensures HasError(KeyLog(containerSrc, id, exceptions, h, dst))
            <==> Migration.IsProblem(Migration.Judge(containerSrc, exceptions, h.key, h.value, dst))
  {
    var r := KeyLog(containerSrc, id, exceptions, h, dst);
    if Migration.IsProblem(Migration.Judge(containerSrc, exceptions, h.key, h.value, dst)) {
      assert |r| == 1 && r[0].level == ErrorLevel;
    }
  }

  /**
   * The audit logs an error exactly when the raising validator of
   * migration/migrate.py would raise on the same headers.
   */
  lemma {:induction false} ErrorLoggedIffRaised(containerSrc: string, containerDst: string, id: string,
                                                exceptions: seq<string>, src: seq<Migration.Header>,
                                                dst: map<string, string>)
    ensures HasError(AuditLog(containerSrc, id, exceptions, src, dst))
            <==> Migration.FirstProblem(containerSrc, containerDst, id, exceptions, src, dst).Some?
  {
    if src != [] {
      ErrorLoggedIffRaised(containerSrc, containerDst, id, exceptions, src[1..], dst);
      KeyLogHasError(containerSrc, id, exceptions, src[0], dst);
      HasErrorAppend(KeyLog(containerSrc, id, exceptions, src[0], dst),
                     AuditLog(containerSrc, id, exceptions, src[1..], dst));
    }
  }

  /** A CWRC object re-typed as zip is logged as expected, never as an error. */
  lemma CwrcZipLoggedAsExpected(id: string, exceptions: seq<string>, srcType: string, dst: map<string, string>)
    requires "content-type" !in exceptions
    requires "content-type" in dst && dst["content-type"] == Migration.ZipType
    ensures AuditLog(Migration.CwrcContainer, id, exceptions, [Migration.Header("content-type", srcType)], dst)
            == [LogEntry(InfoLevel, KeyPrefix(id, "content-type")
                                    + " differs; this is expected in CWRC due to bulk change - destination "
                                    + Migration.ZipType)]
  {
    var h := Migration.Header("content-type", srcType);
    assert [h][1..] == [];
  }

  /**
   * `validate` for one id with the two `stat` results: the log and whether a
   * `KeyError` was raised. A source result without headers raises before
   * any key is read; a destination result without headers raises at the
   * first key that is not excepted, and not at all when every key is.
   */
  function ValidateAll(containerSrc: string, id: string, exceptions: seq<string>,
                       src: Option<seq<Migration.Header>>, dst: Option<map<string, string>>)
    : (r: (seq<LogEntry>, bool))
    ensures src.Some? && dst.Some? ==> !r.1
    ensures src.Some? && dst.None? ==> r.0 == [] && (r.1 <==> exists h :: h in src.value && h.key !in exceptions)
  {
    if src.None? then ([], true)
    else if dst.Some? then (AuditLog(containerSrc, id, exceptions, src.value, dst.value), false)
    else ([], exists h :: h in src.value && h.key !in exceptions)
  }

  /** The log of one header added to the log of those before it. */
  lemma AuditLogStep(containerSrc: string, id: string, exceptions: seq<string>, src: seq<Migration.Header>,
                     i: nat, dst: map<string, string>)
    requires i < |src|
    ensures AuditLog(containerSrc, id, exceptions, src[..i + 1], dst)
            == AuditLog(containerSrc, id, exceptions, src[..i], dst) + KeyLog(containerSrc, id, exceptions, src[i], dst)
  {
    assert src[..i + 1] == src[..i] + [src[i]];
    AuditLogAppend(containerSrc, id, exceptions, src[..i], [src[i]], dst);
    assert [src[i]][1..] == [];
    assert AuditLog(containerSrc, id, exceptions, [src[i]], dst) == KeyLog(containerSrc, id, exceptions, src[i], dst) + [];
  }

  /** `validate`: the nested loops over the stat results and the source header keys, logging only. */
  method Validate(containerSrc: string, id: string, extra: seq<string>,
                  src: Option<seq<Migration.Header>>, dst: Option<map<string, string>>)
    returns (log: seq<LogEntry>, raised: bool)
    ensures (log, raised) == ValidateAll(containerSrc, id, Migration.AllExceptions(extra), src, dst)
  {
    var exceptions := extra + Migration.FixedExceptions;
    log, raised := [], false;
    if src.None? {
      return [], true;
    }
    var headers := src.value;
    var i := 0;
    while i < |headers|
      invariant 0 <= i <= |headers|
      invariant dst.Some? ==> log == AuditLog(containerSrc, id, exceptions, headers[..i], dst.value)
      invariant dst.None? ==> log == [] && forall j :: 0 <= j < i ==> headers[j].key in exceptions
    {
      var key := headers[i].key;
      if key !in exceptions {
        if dst.None? {
          assert headers[i] in headers;
          return [], true;
        }
      }
      if dst.Some? {
        AuditLogStep(containerSrc, id, exceptions, headers, i, dst.value);
        var d := dst.value;
        if key in exceptions {
        } else if key !in d {
          log := log + [LogEntry(ErrorLevel, KeyPrefix(id, key) + " not present in destination: " + headers[i].value)];
        } else if containerSrc == Migration.CwrcContainer && key == "content-type" && d[key] == Migration.ZipType {
          log := log + [LogEntry(InfoLevel, KeyPrefix(id, key)
                                            + " differs; this is expected in CWRC due to bulk change - destination "
                                            + d[key])];
        } else if headers[i].value != d[key] {
          log := log + [LogEntry(ErrorLevel, KeyPrefix(id, key) + " differs - " + headers[i].value + " <> " + d[key])];
        } else {
          log := log + [LogEntry(InfoLevel, KeyPrefix(id, key) + " matches - " + headers[i].value + " == " + d[key])];
        }
      }
      i := i + 1;
    }
    assert headers[..i] == headers;
    if dst.None? {
      assert forall h :: h in headers ==> h.key in exceptions by {
        forall h | h in headers ensures h.key in exceptions {
          var j :| 0 <= j < |headers| && headers[j] == h;
        }
      }
    }
  }

  // ---------------------------------------------------------------------------
  // process

  /** The two `stat` results for one id; `None` is a result without headers. */
  datatype AuditJob = AuditJob(line: string, src: Option<seq<Migration.Header>>, dst: Option<map<string, string>>)

  /**
   * The log written, the ids completed, the one-second pauses slept, and
   * whether an exception ended the loop.
   */
  datatype AuditRun = AuditRun(log: seq<LogEntry>, done: nat, pauses: nat, stopped: bool)

  /**
   * The loop over the id list: each id is validated and followed by a pause;
   * the first exception is logged and ends the loop.
   */
  function AuditAll(containerSrc: string, jobs: seq<AuditJob>): (r: AuditRun)
    ensures r.done <= |jobs|
    ensures !r.stopped <==> r.done == |jobs|
    ensures r.pauses == r.done
  {
    if jobs == [] then AuditRun([], 0, 0, false)
    else
      var first := ValidateAll(containerSrc, Migration.Strip(jobs[0].line), Migration.AllExceptions([]),
                               jobs[0].src, jobs[0].dst);
      if first.1 then AuditRun(first.0 + [LogEntry(ErrorLevel, HeadersKeyError)], 0, 0, true)
      else
        var rest := AuditAll(containerSrc, jobs[1..]);
        AuditRun(first.0 + rest.log, rest.done + 1, rest.pauses + 1, rest.stopped)
  }

  /** Header problems are only logged: when every stat result has headers, every id is audited. */
  lemma {:induction false} ProblemsNeverStopTheAudit(containerSrc: string, jobs: seq<AuditJob>)
    requires forall i :: 0 <= i < |jobs| ==> jobs[i].src.Some? && jobs[i].dst.Some?
    ensures !AuditAll(containerSrc, jobs).stopped && AuditAll(containerSrc, jobs).done == |jobs|
  {
    if jobs != [] {
      assert forall i :: 0 <= i < |jobs| - 1 ==> jobs[1..][i] == jobs[i + 1];
      ProblemsNeverStopTheAudit(containerSrc, jobs[1..]);
    }
  }

  /** An exception ends the loop for good: ids after it are never audited. */
  lemma {:induction false} StopIgnoresLaterIds(containerSrc: string, jobs: seq<AuditJob>, more: seq<AuditJob>)
    requires AuditAll(containerSrc, jobs).stopped
    ensures AuditAll(containerSrc, jobs + more) == AuditAll(containerSrc, jobs)
  {
    SeqFacts.TailOfAppend(jobs, more);
    var first := ValidateAll(containerSrc, Migration.Strip(jobs[0].line), Migration.AllExceptions([]),
                             jobs[0].src, jobs[0].dst);
    if !first.1 {
      StopIgnoresLaterIds(containerSrc, jobs[1..], more);
    }
  }

  /** The ids audited before the rest of the loop, put in front of its run. */
  function AfterIds(log: seq<LogEntry>, done: nat, rest: AuditRun): AuditRun
  {
    AuditRun(log + rest.log, done + rest.done, done + rest.pauses, rest.stopped)
  }

  /** `AuditAll` on a non-empty id list, unfolded once. */
  lemma AuditAllCons(containerSrc: string, jobs: seq<AuditJob>, first: (seq<LogEntry>, bool))
    requires jobs != []
    requires first == ValidateAll(containerSrc, Migration.Strip(jobs[0].line), Migration.AllExceptions([]),
                                  jobs[0].src, jobs[0].dst)
    ensures first.1 ==> AuditAll(containerSrc, jobs)
                        == AuditRun(first.0 + [LogEntry(ErrorLevel, HeadersKeyError)], 0, 0, true)
    ensures !first.1 ==> AuditAll(containerSrc, jobs) == AfterIds(first.0, 1, AuditAll(containerSrc, jobs[1..]))
  {
  }

  /** One more id of the loop: an exception ends it, otherwise the id is done. */
  lemma AuditStep(containerSrc: string, jobs: seq<AuditJob>, i: nat, whole: AuditRun, log: seq<LogEntry>,
                  first: (seq<LogEntry>, bool))
    requires i < |jobs|
    requires first == ValidateAll(containerSrc, Migration.Strip(jobs[i].line), Migration.AllExceptions([]),
                                  jobs[i].src, jobs[i].dst)
    requires whole == AfterIds(log, i, AuditAll(containerSrc, jobs[i..]))
    ensures first.1 ==> whole == AuditRun((log + first.0) + [LogEntry(ErrorLevel, HeadersKeyError)], i, i, true)
    ensures !first.1 ==> whole == AfterIds(log + first.0, i + 1, AuditAll(containerSrc, jobs[i + 1..]))
  {
    var tail := jobs[i..];
    assert tail[0] == jobs[i] && tail[1..] == jobs[i + 1..];
    AuditAllCons(containerSrc, tail, first);
    if first.1 {
      AfterIdsStop(log, i, first.0 + [LogEntry(ErrorLevel, HeadersKeyError)]);
      SeqFacts.AppendAssoc(log, first.0, [LogEntry(ErrorLevel, HeadersKeyError)]);
    } else {
      AfterIdsCons(log, i, first.0, AuditAll(containerSrc, jobs[i + 1..]));
    }
  }

  lemma AfterIdsStop(log: seq<LogEntry>, done: nat, last: seq<LogEntry>)
    ensures AfterIds(log, done, AuditRun(last, 0, 0, true)) == AuditRun(log + last, done, done, true)
  {
  }

  lemma AfterIdsCons(log: seq<LogEntry>, done: nat, entries: seq<LogEntry>, rest: AuditRun)
    ensures AfterIds(log, done, AfterIds(entries, 1, rest)) == AfterIds(log + entries, done + 1, rest)
  {
    SeqFacts.AppendAssoc(log, entries, rest.log);
  }

  /**
   * `process`: each id is validated and followed by a one-second pause; an
   * exception is logged and ends the loop over the remaining ids.
   */
  method Process(containerSrc: string, jobs: seq<AuditJob>)
    returns (log: seq<LogEntry>, done: nat, pauses: nat, stopped: bool)
    ensures AuditRun(log, done, pauses, stopped) == AuditAll(containerSrc, jobs)
  {
    ghost var whole := AuditAll(containerSrc, jobs);
    log, done, pauses, stopped := [], 0, 0, false;
    assert jobs[0..] == jobs;
    assert [] + whole.log == whole.log;
    while done < |jobs|
      invariant 0 <= done <= |jobs|
      invariant whole == AfterIds(log, done, AuditAll(containerSrc, jobs[done..]))
      invariant pauses == done
    {
      var id := Migration.Strip(jobs[done].line);
      ghost var first := ValidateAll(containerSrc, id, Migration.AllExceptions([]), jobs[done].src, jobs[done].dst);
      AuditStep(containerSrc, jobs, done, whole, log, first);
      var entries, raised := Validate(containerSrc, id, [], jobs[done].src, jobs[done].dst);
      log := log + entries;
      if raised {
        log := log + [LogEntry(ErrorLevel, HeadersKeyError)];
        stopped := true;
        return;
      }
      pauses := pauses + 1;
      done := done + 1;
    }
    assert jobs[done..] == [];
    assert log + [] == log;
  }
}
