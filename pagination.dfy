/** The paged full-table fetch shared by app/page.tsx and app/sitemap.ts:
    the store caps every request at `BatchSize` rows, so the code first asks
    for the row count and then requests consecutive inclusive ranges.

    The store itself is a parameter: a count reply and a total function from
    a requested range to the reply for that range. */
module Pagination {
  import opened Wrappers
  import opened Lists

  /** Rows per request (`batchSize`). */
  const BatchSize: nat := 1000

  /** An inclusive row range, as `.range(offset, end)` takes it. */
  datatype Range = Range(start: nat, end: nat)

  /** Reply to the count-only request: an error, or a count that may be null. */
  datatype CountReply = CountFailed | Counted(count: Option<nat>)

  /** Reply to one range request: an error, or the rows (null data is an empty batch). */
  datatype BatchReply<R> = BatchFailed | Batch(rows: seq<R>)

  /** What makes a fetch fail: the count request, or the batch for a range. */
  datatype FetchError = CountError | BatchError(range: Range)

  /** One run of the fetch loop: rows appended, ranges requested in order,
      and whether the run ended on a failed batch. */
  datatype FetchRun<R> = FetchRun(rows: seq<R>, requested: seq<Range>, failed: bool)

  function Min(a: int, b: int): int {
    if a <= b then a else b
  }

  /** `totalCount || 0` */
  function TotalOf(count: Option<nat>): nat {
    if count.Some? then count.value else 0
  }

  /** `[offset, Math.min(offset + batchSize - 1, totalCount - 1)]` */
  function RangeAt(total: nat, offset: nat): Range
    requires offset < total
  {
    Range(offset, Min(offset + BatchSize - 1, total - 1))
  }

  /** The ranges the loop requests from `offset` on when no batch stops it early. */
  function StandardRanges(total: nat, offset: nat): seq<Range>
    decreases total - offset
  {
    if offset >= total then [] else [RangeAt(total, offset)] + StandardRanges(total, offset + BatchSize)
  }

  /** The rows a sequence of replies delivers, in order. */
  function Delivered<R>(fetch: Range -> BatchReply<R>, rs: seq<Range>): seq<R> {
    if rs == [] then []
    else (if fetch(rs[0]).Batch? then fetch(rs[0]).rows else []) + Delivered(fetch, rs[1..])
  }

  /** The loop of app/page.tsx:51-78 and app/sitemap.ts:88-112 from `offset`
      on: it stops when `offset` reaches the total, on a failed batch, on an
      empty batch, or after a batch shorter than `BatchSize`. Each requested
      range is the next standard one. */
  function Paginate<R>(total: nat, fetch: Range -> BatchReply<R>, offset: nat): (run: FetchRun<R>)
    ensures run.failed ==> run.requested != [] && fetch(run.requested[|run.requested| - 1]).BatchFailed?
    decreases total - offset
  {
    if offset >= total then FetchRun([], [], false)
    else
      var rg := RangeAt(total, offset);
      match fetch(rg)
      case BatchFailed => FetchRun([], [rg], true)
      case Batch(data) =>
        if |data| == 0 then FetchRun([], [rg], false)
        else if |data| < BatchSize then FetchRun(data, [rg], false)
        else
          var rest := Paginate(total, fetch, offset + BatchSize);
          FetchRun(data + rest.rows, [rg] + rest.requested, rest.failed)
  }

  /** One turn of the loop: if the run from `offset` on completes what was
      gathered so far to the whole run, then the reply for the next range
      either ends the whole run or hands over to the run from the next
      offset. */
  lemma Advance<R>(total: nat, fetch: Range -> BatchReply<R>, offset: nat, rows: seq<R>, requested: seq<Range>)
    requires offset < total
    requires var rest := Paginate(total, fetch, offset);
      Paginate(total, fetch, 0) == FetchRun(rows + rest.rows, requested + rest.requested, rest.failed)
    ensures var rg := RangeAt(total, offset);
      var reply := fetch(rg);
      var run := Paginate(total, fetch, 0);
      && (reply.BatchFailed? ==> run == FetchRun(rows, requested + [rg], true))
      && (reply.Batch? && |reply.rows| == 0 ==> run == FetchRun(rows, requested + [rg], false))
      && (reply.Batch? && |reply.rows| < BatchSize ==> run == FetchRun(rows + reply.rows, requested + [rg], false))
      && (reply.Batch? && |reply.rows| >= BatchSize ==>
            var rest := Paginate(total, fetch, offset + BatchSize);
            run == FetchRun((rows + reply.rows) + rest.rows, (requested + [rg]) + rest.requested, rest.failed))
  {
    var rg := RangeAt(total, offset);
    match fetch(rg)
    case BatchFailed =>
      assert rows + [] == rows;
    case Batch(data) =>
      if |data| == 0 {
        assert rows + [] == rows;
      } else if |data| < BatchSize {
      } else {
        var rest := Paginate(total, fetch, offset + BatchSize);
        AppendAssoc(rows, data, rest.rows);
        AppendAssoc(requested, [rg], rest.requested);
      }
  }

  /** The end of the loop: nothing is left to request. */
  lemma Finish<R>(total: nat, fetch: Range -> BatchReply<R>, offset: nat, rows: seq<R>, requested: seq<Range>)
    requires offset >= total
    requires var rest := Paginate(total, fetch, offset);
      Paginate(total, fetch, 0) == FetchRun(rows + rest.rows, requested + rest.requested, rest.failed)
    ensures Paginate(total, fetch, 0) == FetchRun(rows, requested, false)
  {
    assert rows + [] == rows && requested + [] == requested;
  }

  // ---------------------------------------------------------------------
  // The ranges

  /** The standard ranges from `offset` on: `offset`, `offset + 1000`, ...,
      each ending at `min(start + 999, total - 1)`; there are
      ceil((total - offset) / 1000) of them. */
  lemma {:induction false} StandardRangesShape(total: nat, offset: nat)
    ensures |StandardRanges(total, offset)| == if offset >= total then 0 else (total - offset + BatchSize - 1) / BatchSize
    ensures forall i :: 0 <= i < |StandardRanges(total, offset)| ==>
      var rg := StandardRanges(total, offset)[i];
      rg.start == offset + i * BatchSize && rg.end == Min(rg.start + BatchSize - 1, total - 1) && rg.start <= rg.end < total
    decreases total - offset
  {
    if offset < total {
      StandardRangesShape(total, offset + BatchSize);
      var rs := StandardRanges(total, offset);
      forall i | 0 <= i < |rs|
        ensures rs[i].start == offset + i * BatchSize && rs[i].end == Min(rs[i].start + BatchSize - 1, total - 1)
        ensures rs[i].start <= rs[i].end < total
      {
        if i > 0 {
          assert rs[i] == StandardRanges(total, offset + BatchSize)[i - 1];
        }
      }
    }
  }

  /** The loop requests the standard ranges in order, possibly stopping early. */
  lemma {:induction false} PaginateFollowsStandard<R>(total: nat, fetch: Range -> BatchReply<R>, offset: nat)
    ensures Paginate(total, fetch, offset).requested <= StandardRanges(total, offset)
    decreases total - offset
  {
    if offset < total {
      var rg := RangeAt(total, offset);
      if fetch(rg).Batch? && |fetch(rg).rows| >= BatchSize {
        PaginateFollowsStandard(total, fetch, offset + BatchSize);
      }
    }
  }

  /** Every range the loop requests, from the first, is `[1000 i, min(1000 i + 999, T - 1)]`
      for its position `i`, and lies inside `[0, T - 1]`. */
  lemma RequestedRanges<R>(total: nat, fetch: Range -> BatchReply<R>)
    ensures var rs := Paginate(total, fetch, 0).requested;
      |rs| <= (total + BatchSize - 1) / BatchSize &&
      forall i :: 0 <= i < |rs| ==>
        rs[i].start == i * BatchSize && rs[i].end == Min(i * BatchSize + BatchSize - 1, total - 1) && rs[i].end < total
  {
    StandardRangesShape(total, 0);
    PaginateFollowsStandard(total, fetch, 0);
  }

  /** With a count of zero (or null) nothing is requested and nothing fetched. */
  lemma NothingRequestedWhenEmpty<R>(fetch: Range -> BatchReply<R>)
    ensures Paginate(0, fetch, 0) == FetchRun([], [], false)
  {
  }

  // ---------------------------------------------------------------------
  // Why the loop stopped, and what it kept

  /** The rows are the concatenation of the batches returned for the
      requested ranges, in order. */
  lemma {:induction false} PaginateDelivers<R>(total: nat, fetch: Range -> BatchReply<R>, offset: nat)
    ensures var run := Paginate(total, fetch, offset); run.rows == Delivered(fetch, run.requested)
    decreases total - offset
  {
    if offset < total {
      var rg := RangeAt(total, offset);
      var run := Paginate(total, fetch, offset);
      if fetch(rg).Batch? && |fetch(rg).rows| >= BatchSize {
        PaginateDelivers(total, fetch, offset + BatchSize);
        var rest := Paginate(total, fetch, offset + BatchSize);
        assert run.requested[1..] == rest.requested;
      } else {
        assert run.requested[1..] == [];
        assert (if fetch(rg).Batch? then fetch(rg).rows else []) + [] == run.rows;
      }
    }
  }

  /** Every batch but the last one was full. */
  lemma {:induction false} PaginateFullBatches<R>(total: nat, fetch: Range -> BatchReply<R>, offset: nat)
    ensures var run := Paginate(total, fetch, offset);
      forall k :: 0 <= k < |run.requested| - 1 ==>
        fetch(run.requested[k]).Batch? && |fetch(run.requested[k]).rows| >= BatchSize
    decreases total - offset
  {
    if offset < total {
      var rg := RangeAt(total, offset);
      var run := Paginate(total, fetch, offset);
      if fetch(rg).Batch? && |fetch(rg).rows| >= BatchSize {
        PaginateFullBatches(total, fetch, offset + BatchSize);
        var rest := Paginate(total, fetch, offset + BatchSize);
        assert run.requested == [rg] + rest.requested;
        assert var run := Paginate(total, fetch, offset + BatchSize);
          forall k :: 0 <= k < |run.requested| - 1 ==>
            fetch(run.requested[k]).Batch? && |fetch(run.requested[k]).rows| >= BatchSize;
        forall k | 0 <= k < |run.requested| - 1
          ensures fetch(run.requested[k]).Batch? && |fetch(run.requested[k]).rows| >= BatchSize
        {
          if k > 0 {
            assert run.requested[k] == rest.requested[k - 1];
            assert fetch(rest.requested[k - 1]).Batch? && |fetch(rest.requested[k - 1]).rows| >= BatchSize;
          } else {
            assert run.requested[k] == rg;
          }
        }
      }
    }
  }

  /** The run either requested every standard range, or its last reply
      failed, was empty or was short. */
  lemma {:induction false} PaginateStops<R>(total: nat, fetch: Range -> BatchReply<R>, offset: nat)
    ensures var run := Paginate(total, fetch, offset);
      || run.requested == StandardRanges(total, offset)
      || (run.requested != [] &&
          var last := fetch(run.requested[|run.requested| - 1]);
          last.BatchFailed? || |last.rows| < BatchSize)
    decreases total - offset
  {
    if offset < total {
      var rg := RangeAt(total, offset);
      var run := Paginate(total, fetch, offset);
      if fetch(rg).Batch? && |fetch(rg).rows| >= BatchSize {
        PaginateStops(total, fetch, offset + BatchSize);
        var rest := Paginate(total, fetch, offset + BatchSize);
        if rest.requested != [] {
          assert run.requested[|run.requested| - 1] == rest.requested[|rest.requested| - 1];
        }
      }
    }
  }

  // ---------------------------------------------------------------------
  // A store that serves exactly what is asked for

  /** The store holds `table` and answers every in-bounds range with that slice. */
  ghost predicate ServesExactly<R>(table: seq<R>, fetch: Range -> BatchReply<R>) {
    forall rg: Range :: rg.start <= rg.end < |table| ==> fetch(rg) == Batch(table[rg.start..rg.end + 1])
  }

  /** Against such a store whose count is right, the loop fetches the whole
      table in order, through every standard range, without failing. */
  lemma {:induction false} FetchesWholeTable<R>(table: seq<R>, fetch: Range -> BatchReply<R>, offset: nat)
    requires ServesExactly(table, fetch)
    requires offset <= |table|
    ensures Paginate(|table|, fetch, offset) == FetchRun(table[offset..], StandardRanges(|table|, offset), false)
    decreases |table| - offset
  {
    var total := |table|;
    if offset < total {
      var rg := RangeAt(total, offset);
      assert fetch(rg) == Batch(table[offset..rg.end + 1]);
      if offset + BatchSize <= total {
        FetchesWholeTable(table, fetch, offset + BatchSize);
        assert table[offset..] == table[offset..offset + BatchSize] + table[offset + BatchSize..];
      } else {
        assert table[offset..rg.end + 1] == table[offset..];
      }
    }
  }

  /** A table of 2500 rows comes in three requests, `[0,999]`,
      `[1000,1999]` and `[2000,2499]`. */
  lemma FetchOf2500<R>(table: seq<R>, fetch: Range -> BatchReply<R>)
    requires |table| == 2500 && ServesExactly(table, fetch)
    ensures Paginate(2500, fetch, 0) == FetchRun(table, [Range(0, 999), Range(1000, 1999), Range(2000, 2499)], false)
  {
    FetchesWholeTable(table, fetch, 0);
    assert StandardRanges(2500, 3000) == [];
  }
}
