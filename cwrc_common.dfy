/**
 * The helpers of cwrc_common.rb that hold logic: the choice of inventory path,
 * the removal of the timestamp string from the inventory response, and the
 * bounded retry loop of the object download. The HTTP requests themselves are
 * inputs: a function from path to response body, and a function giving the
 * outcome of each download attempt.
 */
module CwrcCommon {
  import opened Wrappers

  /** One CWRC object as the inventory lists it: its pid and its modification timestamp text. */
  datatype CwrcObj = CwrcObj(pid: string, timestamp: string)

  /**
   * `String#to_time` applied to a timestamp text: `parse` gives the instant of
   * a text, and the empty text (what `nil.to_s` gives) has none.
   */
  function ToTime(parse: string -> Option<int>, text: string): Option<int>
  {
    if text == "" then None else parse(text)
  }

  /**
   * `a.to_time > b.to_time`: strictly later. When either side has no instant
   * the comparison raises, which is `None` here.
   */
  function Later(parse: string -> Option<int>, a: string, b: string): (r: Option<bool>)
    ensures r.Some? <==> ToTime(parse, a).Some? && ToTime(parse, b).Some?
    ensures r.Some? ==> (r.value <==> ToTime(parse, a).value > ToTime(parse, b).value)
  {
    match (ToTime(parse, a), ToTime(parse, b))
    case (Some(x), Some(y)) => Some(x > y)
    case _ => None
  }

  /** A timestamp is never strictly later than itself. */
  lemma NotLaterThanItself(parse: string -> Option<int>, t: string)
    requires ToTime(parse, t).Some?
    ensures Later(parse, t, t) == Some(false)
  {
  }

  // ---------------------------------------------------------------------------
  // get_cwrc_objs

  const AuditByDate := "audit_by_date/"

  /** The inventory service path: filtered by date when a timestamp is given. */
  function AuditPath(timestamp: string): (path: string)
    ensures |timestamp| > 0 ==> path == AuditByDate + timestamp
    ensures |timestamp| == 0 ==> path == "audit"
  {
    if |timestamp| > 0 then AuditByDate + timestamp else "audit"
  }

  /** Different timestamps request different paths, so the filter is never lost. */
  lemma AuditPathInjective(a: string, b: string)
    requires AuditPath(a) == AuditPath(b)
    ensures a == b
  {
    if |a| > 0 && |b| > 0 {
      assert a == AuditPath(a)[|AuditByDate|..];
      assert b == AuditPath(b)[|AuditByDate|..];
    }
  }

  /** `sub` occurs in `body` starting at index `i`. */
  predicate OccursAt(body: string, sub: string, i: int)
  {
    0 <= i && i + |sub| <= |body| && body[i..i + |sub|] == sub
  }

  /**
   * `body.slice!(sub)`: the first occurrence of `sub` is cut out of `body`;
   * `at` is where it started, `None` when `sub` does not occur and the body
   * is unchanged.
   */
  method SliceFirst(body: string, sub: string) returns (rest: string, at: Option<nat>)
    ensures at.None? ==> rest == body && forall i :: 0 <= i <= |body| ==> !OccursAt(body, sub, i)
    ensures at.Some? ==> && OccursAt(body, sub, at.value)
                         && (forall i :: 0 <= i < at.value ==> !OccursAt(body, sub, i))
                         && rest == body[..at.value] + body[at.value + |sub|..]
  {
    var i := 0;
    while i + |sub| <= |body|
      invariant 0 <= i
      invariant forall j :: 0 <= j < i ==> !OccursAt(body, sub, j)
    {
      if body[i..i + |sub|] == sub {
        return body[..i] + body[i + |sub|..], Some(i);
      }
      i := i + 1;
    }
    return body, None;
  }

  /**
   * The inventory query: the path requested for `timestamp`, and the text
   * handed to the JSON parser, which is the response body with the first
   * occurrence of the timestamp removed.
   */
  method GetCwrcObjs(timestamp: string, respond: string -> string) returns (requested: string, json: string)
    ensures requested == AuditPath(timestamp)
    ensures var body := respond(requested);
            || (json == body && forall i :: 0 <= i <= |body| ==> !OccursAt(body, timestamp, i))
            || exists at: nat :: && OccursAt(body, timestamp, at)
                                 && (forall i :: 0 <= i < at ==> !OccursAt(body, timestamp, i))
                                 && json == body[..at] + body[at + |timestamp|..]
  {
    requested := if |timestamp| > 0 then AuditByDate + timestamp else "audit";
    var at;
    json, at := SliceFirst(respond(requested), timestamp);
  }

  // ---------------------------------------------------------------------------
  // download_cwrc_obj

  /** The delays, in seconds, slept before each retry, consumed front first. */
  const RetryDelays: seq<nat> := [10, 30, 90, 300, 900]

  /** Seconds added to the read timeout before each retry. */
  const TimeoutStep := 30

  /** What one HTTP attempt does. */
  datatype Attempt = Response(body: string) | ReadTimeout | OtherError(reason: string)

  /**
   * The result of the download: the body written to the local file, the
   * `Net::ReadTimeout` re-raised once the delays are used up, or another
   * error propagated at once.
   */
  datatype Fetch = Fetched(body: string) | TimedOut | Failed(reason: string)

  /** The result when attempt `k` is the next one made. */
  function FetchFrom(outcome: nat -> Attempt, k: nat): Fetch
    requires k <= |RetryDelays|
    decreases |RetryDelays| - k
  {
    match outcome(k)
    case Response(b) => Fetched(b)
    case OtherError(e) => Failed(e)
    case ReadTimeout => if k == |RetryDelays| then TimedOut else FetchFrom(outcome, k + 1)
  }

  /** The result of the whole download, attempts numbered from 0. */
  function FetchResult(outcome: nat -> Attempt): Fetch
  {
    FetchFrom(outcome, 0)
  }

  /**
   * The download gives up with a timeout exactly when all six attempts (the
   * first and five retries) time out.
   */
  lemma {:induction false} TimedOutIffSixTimeouts(outcome: nat -> Attempt, k: nat)
    requires k <= |RetryDelays|
    ensures FetchFrom(outcome, k) == TimedOut <==> forall j :: k <= j <= |RetryDelays| ==> outcome(j) == ReadTimeout
    decreases |RetryDelays| - k
  {
    if outcome(k) == ReadTimeout && k < |RetryDelays| {
      TimedOutIffSixTimeouts(outcome, k + 1);
    }
  }

  /**
   * The retry loop. `outcome(k)` is what attempt `k` does; `timeouts[k]` is
   * the read timeout attempt `k` ran with and `delays` the sleeps between
   * attempts. A read timeout is retried while delays remain; any other
   * error, and the read timeout after the last delay, ends the loop.
   */
  method Download(outcome: nat -> Attempt, readTimeout: int)
    returns (result: Fetch, timeouts: seq<int>, delays: seq<nat>)
    ensures 1 <= |timeouts| <= |RetryDelays| + 1
    ensures |delays| == |timeouts| - 1 && delays == RetryDelays[..|delays|]
    ensures forall k :: 0 <= k < |timeouts| ==> timeouts[k] == readTimeout + TimeoutStep * k
    ensures forall k :: 0 <= k < |timeouts| - 1 ==> outcome(k) == ReadTimeout
    ensures match outcome(|timeouts| - 1)
            case Response(b) => result == Fetched(b)
            case OtherError(e) => result == Failed(e)
            case ReadTimeout => result == TimedOut && |timeouts| == |RetryDelays| + 1
    ensures result == FetchResult(outcome)
  {
    var retries := RetryDelays;
    var timeout := readTimeout;
    var k := 0;
    timeouts, delays := [], [];
    while true
      invariant 0 <= k <= |RetryDelays|
      invariant retries == RetryDelays[k..]
      invariant |timeouts| == k && delays == RetryDelays[..k]
      invariant timeout == readTimeout + TimeoutStep * k
      invariant forall j :: 0 <= j < k ==> timeouts[j] == readTimeout + TimeoutStep * j
      invariant forall j :: 0 <= j < k ==> outcome(j) == ReadTimeout
      invariant FetchFrom(outcome, k) == FetchResult(outcome)
      decreases |retries|
    {
      timeouts := timeouts + [timeout];
      match outcome(k) {
        case Response(b) =>
          result := Fetched(b);
          return;
        case OtherError(e) =>
          result := Failed(e);
          return;
        case ReadTimeout =>
          if retries == [] {
            result := TimedOut;
            return;
          }
          var delay := retries[0];
          retries := retries[1..];
          delays := delays + [delay];
          timeout := timeout + TimeoutStep;
          k := k + 1;
      }
    }
  }
}
