/**
 * The audit report of cwrc_audit_report.rb: the Swift listing is paged into one
 * map, every CWRC object is classified against it (and its match removed from
 * the map), and every Swift object left over is reported as missing from CWRC.
 * Timestamps are integer instants and sizes are integers.
 */
module AuditReport {
  import opened Wrappers

  /** Objects smaller than this many bytes are reported as too small. */
  const MinValidSize := 20

  /** The report's status column. */
  datatype Status = Ok | TooSmall | Flagged | Deleted {
    /** The code printed in the status column. */
    function Code(): string
    {
      match this
      case Ok => ""
      case TooSmall => "s"
      case Flagged => "x"
      case Deleted => "d"
    }
  }

  /** One entry of the Swift listing (`objects_detail`). */
  datatype SwiftEntry = SwiftEntry(lastModified: int, bytes: int)

  /** The Swift listing, keyed by Swift object name. */
  type Listing = map<string, SwiftEntry>

  /** One object of the CWRC inventory. */
  datatype CwrcEntry = CwrcEntry(pid: string, mtime: int)

  /** One CSV row; an empty column is `""` or `None`. */
  datatype Row = Row(cwrcPid: string, cwrcMtime: Option<int>, swiftId: string,
                     swiftTimestamp: Option<int>, swiftBytes: Option<int>, status: Status)

  // ---------------------------------------------------------------------------
  // Paging the Swift listing

  /**
   * The map after the first listing page and the next `n` pages have been
   * merged into it; a later page's entry wins on a key clash (Ruby `merge`).
   */
  function Accumulated(first: Listing, more: seq<Listing>, n: nat): Listing
    requires n <= |more|
  {
    if n == 0 then first else Accumulated(first, more, n - 1) + more[n - 1]
  }

  /** Keys of the accumulated map are exactly the keys of the pages merged so far. */
  lemma {:induction false} AccumulatedKeys(first: Listing, more: seq<Listing>, n: nat, k: string)
    requires n <= |more|
    ensures k in Accumulated(first, more, n) <==> k in first || exists j :: 0 <= j < n && k in more[j]
  {
    if n > 0 {
      AccumulatedKeys(first, more, n - 1, k);
      if k in Accumulated(first, more, n) && k !in Accumulated(first, more, n - 1) {
        assert k in more[n - 1];
      }
    }
  }

  /** Merging never loses a key, so the accumulated count never goes down. */
  lemma {:induction false} AccumulatedGrows(first: Listing, more: seq<Listing>, m: nat, n: nat)
    requires m <= n <= |more|
    ensures Accumulated(first, more, m).Keys <= Accumulated(first, more, n).Keys
    ensures |Accumulated(first, more, m)| <= |Accumulated(first, more, n)|
  {
    if m < n {
      AccumulatedGrows(first, more, m, n - 1);
      assert Accumulated(first, more, n - 1).Keys <= Accumulated(first, more, n).Keys;
    }
    var a, b := Accumulated(first, more, m).Keys, Accumulated(first, more, n).Keys;
    assert |a| <= |b| by { SubsetCard(a, b); }
  }

  lemma {:induction false} SubsetCard<T>(a: set<T>, b: set<T>)
    requires a <= b
    ensures |a| <= |b|
  {
    if a != {} {
      var x :| x in a;
      SubsetCard(a - {x}, b - {x});
    }
  }

  /** Below the total before the last merge means below it before every earlier merge too. */
  lemma BelowTotalBefore(first: Listing, more: seq<Listing>, total: int, merged: nat)
    requires merged <= |more|
    requires merged > 0 ==> |Accumulated(first, more, merged - 1)| < total
    ensures forall n :: 0 <= n < merged ==> |Accumulated(first, more, n)| < total
  {
    forall n | 0 <= n < merged
      ensures |Accumulated(first, more, n)| < total
    {
      AccumulatedGrows(first, more, n, merged - 1);
    }
  }

  /** One `merge` of a listing page, and the size of the result. */
  method MergePage(listing: Listing, page: Listing) returns (merged: Listing, size: nat)
    ensures merged.Keys == listing.Keys + page.Keys
    ensures forall k :: k in merged ==> merged[k] == if k in page then page[k] else listing[k]
    ensures size == |merged|
  {
    merged := listing + page;
    size := |merged|;
  }

  /** A map with the keys of both listings, the page winning on a clash, is their `merge`. */
  lemma MergeIsUnion(listing: Listing, page: Listing, merged: Listing)
    requires merged.Keys == listing.Keys + page.Keys
    requires forall k :: k in merged ==> merged[k] == if k in page then page[k] else listing[k]
    ensures merged == listing + page
  {
  }

  /**
   * The paging loop. `first` is the response of the first `objects_detail`
   * call and `more` the responses of the following calls (each made with the
   * last key seen as marker). The loop stops as soon as the merged map holds
   * at least `total` entries, the container's reported count. When the
   * supplied responses run out first, `complete` is false: the script would
   * keep requesting pages.
   */
  method CollectListing(first: Listing, more: seq<Listing>, total: int)
    returns (listing: Listing, merged: nat, complete: bool)
    ensures merged <= |more|
    ensures listing == Accumulated(first, more, merged)
    ensures complete <==> |listing| >= total
    ensures !complete ==> merged == |more|
    ensures forall n :: 0 <= n < merged ==> |Accumulated(first, more, n)| < total
  {
    listing, merged := first, 0;
    var size := |listing|;
    while size < total && merged < |more|
      invariant merged <= |more|
      invariant listing == Accumulated(first, more, merged)
      invariant size == |listing|
      invariant merged > 0 ==> |Accumulated(first, more, merged - 1)| < total
      decreases |more| - merged
    {
      ghost var before := listing;
      listing, size := MergePage(listing, more[merged]);
      MergeIsUnion(before, more[merged], listing);
      merged := merged + 1;
    }
    complete := size >= total;
    BelowTotalBefore(first, more, total, merged);
  }

  // ---------------------------------------------------------------------------
  // Classifying CWRC objects

  /** The status of a CWRC object whose Swift copy is `s`. */
  function Classify(cwrcMtime: int, s: SwiftEntry): (status: Status)
    ensures status == Flagged <==> cwrcMtime > s.lastModified
    ensures status == TooSmall <==> cwrcMtime <= s.lastModified && s.bytes < MinValidSize
    ensures status == Ok <==> cwrcMtime <= s.lastModified && s.bytes >= MinValidSize
  {
    if cwrcMtime > s.lastModified then Flagged
    else if s.bytes < MinValidSize then TooSmall
    else Ok
  }

  /** The row of a CWRC object looked up (under its own pid) in the current map. */
  function RowFor(e: CwrcEntry, swift: Listing): Row
  {
    if e.pid in swift then
      Row(e.pid, Some(e.mtime), e.pid, Some(swift[e.pid].lastModified), Some(swift[e.pid].bytes),
          Classify(e.mtime, swift[e.pid]))
    else
      Row(e.pid, Some(e.mtime), "", None, None, Flagged)
  }

  /** The row of a Swift object that no CWRC object matched. */
  function DeletedRow(key: string, s: SwiftEntry): Row
  {
    Row("", None, key, Some(s.lastModified), Some(s.bytes), Deleted)
  }

  /** The pids of a sequence of CWRC objects. */
  function PidSet(entries: seq<CwrcEntry>): set<string>
  {
    set e | e in entries :: e.pid
  }

  /**
   * The CWRC rows in input order: each object is looked up in the map left by
   * the objects before it, and a matched key is deleted from the map.
   */
  function CwrcRows(entries: seq<CwrcEntry>, swift: Listing): seq<Row>
  {
    if |entries| == 0 then []
    else [RowFor(entries[0], swift)] + CwrcRows(entries[1..], swift - {entries[0].pid})
  }

  /** Whether a CWRC row is printed: summary mode hides status `''`. */
  predicate Emitted(summary: bool, status: Status)
  {
    !summary || (summary && status != Ok)
  }

  /** The CWRC rows that are printed, in order. */
  function Printed(summary: bool, rows: seq<Row>): seq<Row>
  {
    if |rows| == 0 then []
    else (if Emitted(summary, rows[0].status) then [rows[0]] else []) + Printed(summary, rows[1..])
  }

  /** The Swift names of a sequence of rows. */
  function IdsOf(rows: seq<Row>): set<string>
  {
    set r | r in rows :: r.swiftId
  }

  /** `rows` holds exactly one `'d'` row for each entry of `left`, and nothing else. */
  predicate LeftoverReport(rows: seq<Row>, left: Listing)
  {
    && IdsOf(rows) == left.Keys
    && |rows| == |left.Keys|
    && forall r :: r in rows ==> r.swiftId in left && r == DeletedRow(r.swiftId, left[r.swiftId])
  }

  /**
   * The row of the object at position `i` is its row against the map left by
   * the objects before it: a pid seen earlier no longer matches.
   */
  lemma {:induction false} CwrcRowsAt(entries: seq<CwrcEntry>, swift: Listing, i: nat)
    requires i < |entries|
    ensures |CwrcRows(entries, swift)| == |entries|
    ensures CwrcRows(entries, swift)[i] == RowFor(entries[i], swift - PidSet(entries[..i]))
  {
    CwrcRowsLength(entries[1..], swift - {entries[0].pid});
    if i == 0 {
      assert PidSet(entries[..0]) == {};
      assert swift - PidSet(entries[..0]) == swift;
    } else {
      var tail := entries[1..];
      CwrcRowsAt(tail, swift - {entries[0].pid}, i - 1);
      assert tail[i - 1] == entries[i];
      assert entries[..i] == [entries[0]] + tail[..i - 1];
      assert PidSet(entries[..i]) == {entries[0].pid} + PidSet(tail[..i - 1]);
      assert (swift - {entries[0].pid}) - PidSet(tail[..i - 1]) == swift - PidSet(entries[..i]);
    }
  }

  lemma {:induction false} CwrcRowsLength(entries: seq<CwrcEntry>, swift: Listing)
    ensures |CwrcRows(entries, swift)| == |entries|
  {
    if |entries| > 0 {
      CwrcRowsLength(entries[1..], swift - {entries[0].pid});
    }
  }

  /**
   * With distinct pids every object is classified against the full listing:
   * a pid in the listing gets the listing's columns and the status of
   * `Classify`, any other pid gets status `'x'` with empty Swift columns.
   */
  lemma DistinctPidsRows(entries: seq<CwrcEntry>, swift: Listing, i: nat)
    requires forall a, b :: 0 <= a < b < |entries| ==> entries[a].pid != entries[b].pid
    requires i < |entries|
    ensures |CwrcRows(entries, swift)| == |entries|
    ensures var r := CwrcRows(entries, swift)[i];
            && r.cwrcPid == entries[i].pid && r.cwrcMtime == Some(entries[i].mtime)
            && (entries[i].pid in swift ==>
                  r.swiftId == entries[i].pid
                  && r.swiftTimestamp == Some(swift[entries[i].pid].lastModified)
                  && r.swiftBytes == Some(swift[entries[i].pid].bytes)
                  && r.status == Classify(entries[i].mtime, swift[entries[i].pid]))
            && (entries[i].pid !in swift ==>
                  r.swiftId == "" && r.swiftTimestamp == None && r.swiftBytes == None && r.status == Flagged)
  {
    CwrcRowsAt(entries, swift, i);
    assert entries[i].pid !in PidSet(entries[..i]);
  }

  /** Without summary mode every CWRC row is printed, in input order. */
  lemma {:induction false} PrintedAll(rows: seq<Row>)
    ensures Printed(false, rows) == rows
  {
    if |rows| > 0 {
      PrintedAll(rows[1..]);
    }
  }

  /** Summary mode prints exactly the CWRC rows whose status is not `''`. */
  lemma {:induction false} PrintedSummary(rows: seq<Row>, r: Row)
    ensures r in Printed(true, rows) <==> r in rows && r.status != Ok
  {
    if |rows| > 0 {
      PrintedSummary(rows[1..], r);
      assert rows == [rows[0]] + rows[1..];
    }
  }

  /** Printing a row in front of `rest` prints it (if emitted) in front of what `rest` prints. */
  lemma PrintedCons(summary: bool, row: Row, rest: seq<Row>)
    ensures Printed(summary, [row] + rest)
            == (if Emitted(summary, row.status) then [row] else []) + Printed(summary, rest)
  {
    assert ([row] + rest)[1..] == rest;
  }

  /** One step of the classification: the object at `i` sees the map left before it. */
  lemma CwrcRowsStep(entries: seq<CwrcEntry>, i: nat, m: Listing)
    requires i < |entries|
    ensures CwrcRows(entries[i..], m)
            == [RowFor(entries[i], m)] + CwrcRows(entries[i + 1..], m - {entries[i].pid})
  {
    assert entries[i..][0] == entries[i] && entries[i..][1..] == entries[i + 1..];
  }

  /** Deleting the next pid from the map left so far gives the map left after it. */
  lemma RemainingStep(entries: seq<CwrcEntry>, i: nat, swift: Listing)
    requires i < |entries|
    ensures (swift - PidSet(entries[..i])) - {entries[i].pid} == swift - PidSet(entries[..i + 1])
  {
    assert entries[..i + 1] == entries[..i] + [entries[i]];
    assert PidSet(entries[..i + 1]) == PidSet(entries[..i]) + {entries[i].pid};
  }

  /** The loop invariant of `ClassifyAll` is kept by one iteration. */
  lemma ClassifyStep(entries: seq<CwrcEntry>, swift: Listing, summary: bool, i: nat, printed: seq<Row>)
    requires i < |entries|
    requires printed + Printed(summary, CwrcRows(entries[i..], swift - PidSet(entries[..i])))
             == Printed(summary, CwrcRows(entries, swift))
    ensures var row := RowFor(entries[i], swift - PidSet(entries[..i]));
            (printed + (if Emitted(summary, row.status) then [row] else []))
              + Printed(summary, CwrcRows(entries[i + 1..], swift - PidSet(entries[..i + 1])))
            == Printed(summary, CwrcRows(entries, swift))
  {
    var m := swift - PidSet(entries[..i]);
    var row := RowFor(entries[i], m);
    var rest := CwrcRows(entries[i + 1..], swift - PidSet(entries[..i + 1]));
    CwrcRowsStep(entries, i, m);
    RemainingStep(entries, i, swift);
    PrintedCons(summary, row, rest);
  }

  /**
   * One CWRC object against the current map: its row, and the map with a
   * matched key deleted.
   */
  method ClassifyOne(e: CwrcEntry, leftover: Listing) returns (row: Row, rest: Listing)
    ensures row == RowFor(e, leftover)
    ensures rest == leftover - {e.pid}
  {
    if e.pid in leftover {
      row := Row(e.pid, Some(e.mtime), e.pid, Some(leftover[e.pid].lastModified),
                 Some(leftover[e.pid].bytes), Classify(e.mtime, leftover[e.pid]));
      rest := leftover - {e.pid};
    } else {
      row := Row(e.pid, Some(e.mtime), "", None, None, Flagged);
      rest := leftover;
      assert leftover - {e.pid} == leftover;
    }
  }

  /**
   * The classification loop: for each CWRC object in order, its row is built
   * from the current map, a matched key is deleted, and the row is printed
   * unless summary mode hides it. `leftover` is the map after the loop.
   */
  method ClassifyAll(entries: seq<CwrcEntry>, swift: Listing, summary: bool)
    returns (printed: seq<Row>, leftover: Listing)
    ensures printed == Printed(summary, CwrcRows(entries, swift))
    ensures leftover == swift - PidSet(entries)
  {
    leftover := swift;
    printed := [];
    assert entries[..0] == [] && entries[0..] == entries;
    assert PidSet(entries[..0]) == {};
    var i := 0;
    while i < |entries|
      invariant 0 <= i <= |entries|
      invariant leftover == swift - PidSet(entries[..i])
      invariant printed + Printed(summary, CwrcRows(entries[i..], leftover))
                == Printed(summary, CwrcRows(entries, swift))
    {
      printed, leftover := ClassifyNext(entries, swift, summary, i, printed, leftover);
      i := i + 1;
    }
    assert entries[..i] == entries;
  }

  /** One iteration of `ClassifyAll`, which keeps its loop invariant. */
  method ClassifyNext(entries: seq<CwrcEntry>, swift: Listing, summary: bool, i: nat,
                      printed: seq<Row>, leftover: Listing)
    returns (printed': seq<Row>, leftover': Listing)
    requires i < |entries|
    requires leftover == swift - PidSet(entries[..i])
    requires printed + Printed(summary, CwrcRows(entries[i..], leftover))
             == Printed(summary, CwrcRows(entries, swift))
    ensures leftover' == swift - PidSet(entries[..i + 1])
    ensures printed' + Printed(summary, CwrcRows(entries[i + 1..], leftover'))
            == Printed(summary, CwrcRows(entries, swift))
  {
    ClassifyStep(entries, swift, summary, i, printed);
    RemainingStep(entries, i, swift);
    var row;
    row, leftover' := ClassifyOne(entries[i], leftover);
    printed' := printed;
    if Emitted(summary, row.status) {
      printed' := printed + [row];
    }
  }

  /** The leftover loop: one `'d'` row per remaining Swift entry. */
  method LeftoverRows(left: Listing) returns (rows: seq<Row>)
    ensures LeftoverReport(rows, left)
  {
    rows := [];
    var keys := left.Keys;
    while keys != {}
      invariant keys <= left.Keys
      invariant |rows| + |keys| == |left.Keys|
      invariant IdsOf(rows) == left.Keys - keys
      invariant forall r :: r in rows ==> r.swiftId in left && r == DeletedRow(r.swiftId, left[r.swiftId])
      decreases keys
    {
      var k :| k in keys;
      assert IdsOf(rows + [DeletedRow(k, left[k])]) == IdsOf(rows) + {k};
      rows := rows + [DeletedRow(k, left[k])];
      keys := keys - {k};
    }
  }

  /**
   * The report body: the CWRC rows (filtered in summary mode) followed by one
   * `'d'` row per Swift entry that no CWRC pid matched.
   */
  method Report(entries: seq<CwrcEntry>, swift: Listing, summary: bool) returns (out: seq<Row>)
    ensures var head := Printed(summary, CwrcRows(entries, swift));
            |head| <= |out| && out[..|head|] == head
            && LeftoverReport(out[|head|..], swift - PidSet(entries))
  {
    var printed, leftover := ClassifyAll(entries, swift, summary);
    var tail := LeftoverRows(leftover);
    out := printed + tail;
    assert out[..|printed|] == printed && out[|printed|..] == tail;
  }
}
