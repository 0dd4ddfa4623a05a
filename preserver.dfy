/**
 * The per-object loop of cwrc_preserver.rb: derive the zip name of each CWRC
 * object, decide whether it must be deposited, download it, deposit it into
 * Swift and keep the two ledger files, removing the local copy on both exit
 * paths. The Swift container, the ledger files and the local directory are
 * values threaded through the loop; what the network does for each object
 * (whether the existence lookup raises, each download attempt's outcome,
 * whether the deposit raises) is part of the input.
 */
module Preserver {
  import opened Wrappers
  import opened CwrcCommon
  import opened Ingestor

  // ---------------------------------------------------------------------------
  // Names

  /** `tr(':', '_')`: every colon becomes an underscore, nothing else changes. */
  function ColonsToUnderscores(pid: string): (r: string)
    ensures |r| == |pid|
    ensures forall i :: 0 <= i < |pid| ==> r[i] == (if pid[i] == ':' then '_' else pid[i])
  {
    if pid == [] then []
    else [if pid[0] == ':' then '_' else pid[0]] + ColonsToUnderscores(pid[1..])
  }

  /** The local file name, which is also the Swift object name, of a CWRC object. */
  function ZipName(pid: string): (name: string)
    ensures |name| == |pid| + 4 && name[|pid|..] == ".zip"
    ensures forall i :: 0 <= i < |pid| ==> name[i] == (if pid[i] == ':' then '_' else pid[i])
  {
    ColonsToUnderscores(pid) + ".zip"
  }

  /** Two different pids can share a zip name: the name is not injective. */
  lemma ZipNameCollides()
    ensures "a:b" != "a_b" && ZipName("a:b") == ZipName("a_b")
  {
    assert ZipName("a:b") == "a_b.zip";
    assert ZipName("a_b") == "a_b.zip";
  }

  /** Among pids without underscores the zip name is injective. */
  lemma ZipNameInjectiveWithoutUnderscores(p: string, q: string)
    requires '_' !in p && '_' !in q
    requires ZipName(p) == ZipName(q)
    ensures p == q
  {
    assert |p| == |q|;
    forall i | 0 <= i < |p| ensures p[i] == q[i] {
      assert p[i] in p && q[i] in q;
      assert ZipName(p)[i] == ZipName(q)[i];
    }
  }

  /**
   * The preserver stores an object under its zip name, while the reconciler
   * and the audit report look objects up by the raw pid: for a pid without
   * slashes, a preserver deposit does not change what a raw-pid lookup finds.
   */
  lemma {:induction false} DepositInvisibleToRawLookup(container: Container, pid: string, obj: StoredObject)
    requires '/' !in pid
    ensures GetFile(container[Basename(ZipName(pid)) := obj], pid) == GetFile(container, pid)
  {
    var name := ZipName(pid);
    assert '/' !in name by {
      forall i | 0 <= i < |name| ensures name[i] != '/' {
        if i < |pid| { assert pid[i] in pid; } else { assert name[|pid|..][i - |pid|] == name[i]; }
      }
    }
    PlainNameIsOwnBasename(name);
    PlainNameIsOwnBasename(pid);
    assert name != pid;
  }

  // ---------------------------------------------------------------------------
  // The decision

  /**
   * Whether the object is deposited: always when forced (reprocess mode, or
   * the existence lookup raised), when Swift has no copy, or when the CWRC
   * timestamp is strictly later than the stored `timestamp` metadata. `None`
   * is the comparison raising because a side has no instant.
   */
  function ShouldDeposit(parse: string -> Option<int>, force: bool, swiftFile: Option<StoredObject>,
                         timestamp: string): (r: Option<bool>)
    ensures force ==> r == Some(true)
    ensures !force && swiftFile.None? ==> r == Some(true)
    ensures !force && swiftFile.Some? ==> r == Later(parse, timestamp, MetaValue(swiftFile.value, "timestamp"))
  {
    if force || swiftFile.None? then Some(true)
    else Later(parse, timestamp, MetaValue(swiftFile.value, "timestamp"))
  }

  // ---------------------------------------------------------------------------
  // One object

  /** The run's fixed settings; `parse` is `to_time` and `md5` the file digest. */
  datatype Config = Config(reprocess: bool, project: string, contentType: string, readTimeout: int,
                           parse: string -> Option<int>, md5: string -> string)

  /**
   * What the outside world does for one object: whether the existence lookup
   * raises, the outcome of each download attempt, whether the deposit raises,
   * and the size/rate text that ends the success line.
   */
  datatype Job = Job(obj: CwrcObj, lookupRaises: bool, attempts: nat -> Attempt,
                     depositRaises: bool, stats: string)

  /** The state the loop changes: Swift, the failure and success ledgers, the local files. */
  datatype Store = Store(container: Container, failed: seq<string>, archived: seq<string>,
                         local: map<string, string>)

  datatype Outcome = Skipped | DownloadTimedOut | DepositFailed | Deposited

  /** One object processed, or the run ended by an exception nobody rescues. */
  datatype Step = Continue(store: Store, outcome: Outcome) | Abort(reason: string)

  /** The failure ledger line of a pid. */
  function FailureLine(pid: string): string
  {
    pid + "\n"
  }

  /** The success ledger line: the pid, a space, then the statistics. */
  function SuccessLine(pid: string, stats: string): string
  {
    pid + " " + stats + "\n"
  }

  /** The reason recorded when the timestamp comparison raises. */
  const ComparisonError := "comparison of timestamps failed"

  /** The effect of the loop body on one object. */
  function Process(cfg: Config, s: Store, job: Job): Step
  {
    var pid := job.obj.pid;
    var name := ZipName(pid);
    var force := cfg.reprocess || job.lookupRaises;
    var swiftFile := if force then None else GetFile(s.container, name);
    match ShouldDeposit(cfg.parse, force, swiftFile, job.obj.timestamp)
    case None => Abort(ComparisonError)
    case Some(false) => Continue(s, Skipped)
    case Some(true) =>
      match FetchResult(job.attempts)
      case Failed(e) => Abort(e)
      case TimedOut => Continue(s, DownloadTimedOut)
      case Fetched(body) =>
        var local := s.local[name := body];
        if job.depositRaises then
          Continue(s.(failed := s.failed + [FailureLine(pid)], local := local - {name}), DepositFailed)
        else
          var obj := DepositedObject(cfg.project, Basename(name), local[name], cfg.contentType,
                                     map["timestamp" := job.obj.timestamp], cfg.md5);
          Continue(s.(container := s.container[Basename(name) := obj],
                      archived := s.archived + [SuccessLine(pid, job.stats)],
                      local := local - {name}), Deposited)
  }

  /**
   * The loop body. Reprocess mode skips the existence lookup; a lookup that
   * raises forces the deposit; a read timeout skips to the next object; a
   * deposit error is logged to the failure file; the local file is removed
   * on both deposit paths.
   */
  method ProcessObject(cfg: Config, s: Store, job: Job) returns (step: Step)
    ensures step == Process(cfg, s, job)
  {
    var pid := job.obj.pid;
    var name := ZipName(pid);
    var force := cfg.reprocess;
    var swiftFile: Option<StoredObject> := None;
    if !force {
      if job.lookupRaises {
        force := true;
      } else {
        swiftFile := GetFile(s.container, name);
      }
    }
    if !(force || swiftFile.None?) {
      var later := Later(cfg.parse, job.obj.timestamp, MetaValue(swiftFile.value, "timestamp"));
      if later.None? {
        return Abort(ComparisonError);
      }
      if !later.value {
        return Continue(s, Skipped);
      }
    }
    var fetch, timeouts, delays := Download(job.attempts, cfg.readTimeout);
    match fetch {
      case Failed(e) =>
        return Abort(e);
      case TimedOut =>
        return Continue(s, DownloadTimedOut);
      case Fetched(body) =>
        var local := s.local[name := body];
        if job.depositRaises {
          local := local - {name};
          return Continue(s.(failed := s.failed + [FailureLine(pid)], local := local), DepositFailed);
        }
        var container, deposited, request :=
          DepositFile(cfg.project, s.container, name, local[name], cfg.contentType,
                      map["timestamp" := job.obj.timestamp], cfg.md5);
        local := local - {name};
        return Continue(Store(container, s.failed, s.archived + [SuccessLine(pid, job.stats)], local),
                        Deposited);
    }
  }

  // ---------------------------------------------------------------------------
  // The run

  /** The final state, the outcome of each object processed, and the abort reason if any. */
  datatype RunResult = RunResult(store: Store, outcomes: seq<Outcome>, aborted: Option<string>)

  /** The run over `jobs` in order, stopping at the first unrescued exception. */
  function RunFrom(cfg: Config, jobs: seq<Job>, s: Store): (r: RunResult)
    ensures |r.outcomes| <= |jobs|
    ensures r.aborted.None? ==> |r.outcomes| == |jobs|
  {
    if jobs == [] then RunResult(s, [], None)
    else
      match Process(cfg, s, jobs[0])
      case Abort(e) => RunResult(s, [], Some(e))
      case Continue(s', o) =>
        var rest := RunFrom(cfg, jobs[1..], s');
        rest.(outcomes := [o] + rest.outcomes)
  }

  /** `cwrc_objs.each`: the loop over all objects. */
  method Run(cfg: Config, jobs: seq<Job>, initial: Store) returns (result: RunResult)
    ensures result == RunFrom(cfg, jobs, initial)
  {
    var s := initial;
    var outcomes: seq<Outcome> := [];
    var i := 0;
    while i < |jobs|
      invariant 0 <= i <= |jobs|
      invariant var rest := RunFrom(cfg, jobs[i..], s);
                RunFrom(cfg, jobs, initial) == rest.(outcomes := outcomes + rest.outcomes)
    {
      assert jobs[i..][0] == jobs[i] && jobs[i..][1..] == jobs[i + 1..];
      var step := ProcessObject(cfg, s, jobs[i]);
      match step {
        case Abort(e) =>
          return RunResult(s, outcomes, Some(e));
        case Continue(s', o) =>
          s := s';
          outcomes := outcomes + [o];
      }
      i := i + 1;
    }
    return RunResult(s, outcomes, None);
  }

  // ---------------------------------------------------------------------------
  // Properties

  /** Reprocess mode, or a raising lookup, deposits without comparing timestamps. */
  lemma ForcedObjectIsDownloaded(cfg: Config, s: Store, job: Job)
    requires cfg.reprocess || job.lookupRaises
    ensures Process(cfg, s, job) != Continue(s, Skipped)
    ensures Process(cfg, s, job) != Abort(ComparisonError) || FetchResult(job.attempts) == Failed(ComparisonError)
  {
  }

  /**
   * Without forcing, an object whose Swift copy carries the same timestamp
   * is skipped: only a strictly later CWRC timestamp is deposited.
   */
  lemma EqualTimestampSkips(cfg: Config, s: Store, job: Job)
    requires !cfg.reprocess && !job.lookupRaises
    requires GetFile(s.container, ZipName(job.obj.pid)).Some?
    requires MetaValue(GetFile(s.container, ZipName(job.obj.pid)).value, "timestamp") == job.obj.timestamp
    requires ToTime(cfg.parse, job.obj.timestamp).Some?
    ensures Process(cfg, s, job) == Continue(s, Skipped)
  {
    NotLaterThanItself(cfg.parse, job.obj.timestamp);
  }

  /**
   * One object adds at most one ledger line. A failed deposit appends exactly
   * `pid\n` to the failure ledger and nothing to the success ledger, and the
   * local zip file is removed.
   */
  lemma FailedDepositLedger(cfg: Config, s: Store, job: Job)
    requires Process(cfg, s, job).Continue? && Process(cfg, s, job).outcome == DepositFailed
    ensures Process(cfg, s, job).store.failed == s.failed + [job.obj.pid + "\n"]
    ensures Process(cfg, s, job).store.archived == s.archived
    ensures Process(cfg, s, job).store.local == s.local - {ZipName(job.obj.pid)}
  {
  }

  /** A deposit appends one line beginning with `pid ` to the success ledger only. */
  lemma DepositedLedger(cfg: Config, s: Store, job: Job)
    requires Process(cfg, s, job).Continue? && Process(cfg, s, job).outcome == Deposited
    ensures Process(cfg, s, job).store.failed == s.failed
    ensures var archived := Process(cfg, s, job).store.archived;
            && |archived| == |s.archived| + 1 && archived[..|s.archived|] == s.archived
            && archived[|s.archived|][..|job.obj.pid| + 1] == job.obj.pid + " "
  {
    var line := SuccessLine(job.obj.pid, job.stats);
    DepositAppendsLine(cfg, s, job);
    SuccessLineStarts(job.obj.pid, job.stats);
    var archived := s.archived + [line];
    assert archived[..|s.archived|] == s.archived && archived[|s.archived|] == line;
  }

  /**
   * A deposit appends the object's success line to the success ledger, leaves
   * the failure ledger, and removes the local zip file.
   */
  lemma DepositAppendsLine(cfg: Config, s: Store, job: Job)
    requires Process(cfg, s, job).Continue? && Process(cfg, s, job).outcome == Deposited
    ensures Process(cfg, s, job).store.failed == s.failed
    ensures Process(cfg, s, job).store.archived == s.archived + [SuccessLine(job.obj.pid, job.stats)]
    ensures Process(cfg, s, job).store.local == s.local - {ZipName(job.obj.pid)}
  {
    var name := ZipName(job.obj.pid);
    var force := cfg.reprocess || job.lookupRaises;
    var swiftFile := if force then None else GetFile(s.container, name);
    assert ShouldDeposit(cfg.parse, force, swiftFile, job.obj.timestamp) == Some(true);
    assert FetchResult(job.attempts).Fetched? && !job.depositRaises;
  }

  /** A success line begins with the pid and a space. */
  lemma SuccessLineStarts(pid: string, stats: string)
    ensures |SuccessLine(pid, stats)| > |pid| && SuccessLine(pid, stats)[..|pid| + 1] == pid + " "
  {
    assert SuccessLine(pid, stats) == (pid + " ") + (stats + "\n");
  }

  /** A skipped object, or one whose download timed out, leaves both ledgers and Swift unchanged. */
  lemma QuietOutcomeLedger(cfg: Config, s: Store, job: Job)
    requires Process(cfg, s, job).Continue?
    requires Process(cfg, s, job).outcome == Skipped || Process(cfg, s, job).outcome == DownloadTimedOut
    ensures Process(cfg, s, job).store == s
  {
  }

  /**
   * After a successful deposit the Swift copy carries the CWRC timestamp, so
   * processing the same object again without forcing skips it.
   */
  lemma {:induction false} DepositThenSkip(cfg: Config, s: Store, job: Job, again: Job)
    requires !cfg.reprocess && Process(cfg, s, job).Continue? && Process(cfg, s, job).outcome == Deposited
    requires again.obj == job.obj && !again.lookupRaises
    requires ToTime(cfg.parse, job.obj.timestamp).Some?
    ensures Process(cfg, Process(cfg, s, job).store, again) == Continue(Process(cfg, s, job).store, Skipped)
  {
    var t := Process(cfg, s, job).store;
    var name := ZipName(job.obj.pid);
    assert GetFile(t.container, name).Some?;
    var stored := GetFile(t.container, name).value;
    DepositReadBack(cfg.project, Basename(name), map["timestamp" := job.obj.timestamp], stored, "timestamp");
    EqualTimestampSkips(cfg, t, again);
  }

  /** The number of outcomes equal to `o`. */
  function Count(outcomes: seq<Outcome>, o: Outcome): nat
  {
    if outcomes == [] then 0 else (if outcomes[0] == o then 1 else 0) + Count(outcomes[1..], o)
  }

  /**
   * Over a whole run the failure ledger grows by exactly one line per failed
   * deposit and the success ledger by one line per deposit, and no local zip
   * file is left behind: the local files afterwards are among those before.
   */
  lemma {:induction false} RunLedger(cfg: Config, jobs: seq<Job>, s: Store)
    ensures var r := RunFrom(cfg, jobs, s);
            && |r.store.failed| == |s.failed| + Count(r.outcomes, DepositFailed)
            && |r.store.archived| == |s.archived| + Count(r.outcomes, Deposited)
            && r.store.local.Keys <= s.local.Keys
  {
    if jobs != [] {
      match Process(cfg, s, jobs[0]) {
        case Abort(_) =>
        case Continue(s', o) =>
          if o == DepositFailed {
            FailedDepositLedger(cfg, s, jobs[0]);
          } else if o == Deposited {
            DepositedLedger(cfg, s, jobs[0]);
          } else {
            QuietOutcomeLedger(cfg, s, jobs[0]);
          }
          assert s'.local.Keys <= s.local.Keys;
          RunLedger(cfg, jobs[1..], s');
          var rest := RunFrom(cfg, jobs[1..], s');
          assert ([o] + rest.outcomes)[1..] == rest.outcomes;
      }
    }
  }
}
