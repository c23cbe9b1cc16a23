/**
 * The flattener: the parsed files become one list of display rows, a
 * summary row first and then, for each file that is not closed, its box
 * top, its hunks (when the file is neither collapsed nor binary) and its
 * box bottom. Rows carry the file's original index.
 *
 * The list is specified as the concatenation of a table of blocks: one
 * block per hunk inside a file, and one block per file (empty when the
 * file is closed) for the whole list. The properties of concatenation are
 * proved once, over any table, and then applied to these two tables.
 */
module Flatten {
  import opened Types
  import opened Aligner
  import opened SeqFacts

  // ---------------------------------------------------------------------
  // Concatenation of blocks
  // ---------------------------------------------------------------------

  /** The blocks `lo <= j < hi`, one after the other. */
  function Concat(blocks: seq<seq<FlatRow>>, lo: nat, hi: nat): seq<FlatRow>
    requires lo <= hi <= |blocks|
    decreases hi - lo
  {
    if hi == lo then [] else Concat(blocks, lo, hi - 1) + blocks[hi - 1]
  }

  lemma ConcatAdd(blocks: seq<seq<FlatRow>>, lo: nat, hi: nat)
    requires lo <= hi < |blocks|
    ensures Concat(blocks, lo, hi + 1) == Concat(blocks, lo, hi) + blocks[hi]
  {
  }

  lemma ConcatSkip(blocks: seq<seq<FlatRow>>, lo: nat, hi: nat)
    requires lo <= hi < |blocks| && blocks[hi] == []
    ensures Concat(blocks, lo, hi + 1) == Concat(blocks, lo, hi)
  {
    var front := Concat(blocks, lo, hi);
    assert front + [] == front;
  }

  lemma {:induction false} ConcatSplit(blocks: seq<seq<FlatRow>>, lo: nat, mid: nat, hi: nat)
    requires lo <= mid <= hi <= |blocks|
    ensures Concat(blocks, lo, hi) == Concat(blocks, lo, mid) + Concat(blocks, mid, hi)
    decreases hi - mid
  {
    if hi == mid {
      var front := Concat(blocks, lo, mid);
      assert front + [] == front;
    } else {
      ConcatSplit(blocks, lo, mid, hi - 1);
      AppendAssoc(Concat(blocks, lo, mid), Concat(blocks, mid, hi - 1), blocks[hi - 1]);
    }
  }

  /** Block `j` sits between the blocks before it and the blocks after it. */
  lemma ConcatSegment(blocks: seq<seq<FlatRow>>, lo: nat, j: nat, hi: nat)
    requires lo <= j < hi <= |blocks|
    ensures Concat(blocks, lo, hi) == Concat(blocks, lo, j) + blocks[j] + Concat(blocks, j + 1, hi)
  {
    ConcatSplit(blocks, lo, j + 1, hi);
    ConcatAdd(blocks, lo, j);
  }

  /** Two tables that agree on `lo <= j < hi` concatenate alike there. */
  lemma {:induction false} ConcatAgree(b1: seq<seq<FlatRow>>, b2: seq<seq<FlatRow>>, lo: nat, hi: nat)
    requires lo <= hi <= |b1| && hi <= |b2|
    requires forall j :: lo <= j < hi ==> b1[j] == b2[j]
    ensures Concat(b1, lo, hi) == Concat(b2, lo, hi)
    decreases hi - lo
  {
    if hi > lo {
      ConcatAgree(b1, b2, lo, hi - 1);
    }
  }

  // ---------------------------------------------------------------------
  // Reference definition
  // ---------------------------------------------------------------------

  /** Sum of `additions` over the files below `n` that are not closed. */
  function SumAdditions(files: seq<ProcessedFile>, closed: set<nat>, n: nat): int
    requires n <= |files|
  {
    if n == 0 then 0
    else SumAdditions(files, closed, n - 1) + (if n - 1 in closed then 0 else files[n - 1].additions)
  }

  /** Sum of `deletions` over the files below `n` that are not closed. */
  function SumDeletions(files: seq<ProcessedFile>, closed: set<nat>, n: nat): int
    requires n <= |files|
  {
    if n == 0 then 0
    else SumDeletions(files, closed, n - 1) + (if n - 1 in closed then 0 else files[n - 1].deletions)
  }

  /** The number of files below `n` that are not closed. */
  function VisibleCount(files: seq<ProcessedFile>, closed: set<nat>, n: nat): nat
    requires n <= |files|
  {
    if n == 0 then 0
    else VisibleCount(files, closed, n - 1) + (if n - 1 in closed then 0 else 1)
  }

  function SummaryOf(files: seq<ProcessedFile>, closed: set<nat>): FlatRow
  {
    Summary(VisibleCount(files, closed, |files|),
            SumAdditions(files, closed, |files|),
            SumDeletions(files, closed, |files|))
  }

  /** The first `k` aligned rows of a hunk, each tagged with file `i`. */
  function LinePairs(i: nat, aligned: seq<AlignedRow>, k: nat): (r: seq<FlatRow>)
    requires k <= |aligned|
    ensures |r| == k
  {
    if k == 0 then [] else LinePairs(i, aligned, k - 1) + [LinePair(i, aligned[k - 1])]
  }

  /** The rows of one hunk: its header, then its aligned rows. */
  function ChunkRows(i: nat, chunk: Chunk): seq<FlatRow>
  {
    var aligned := Align(chunk.changes);
    [HunkHeader(i, chunk.content)] + LinePairs(i, aligned, |aligned|)
  }

  /** One block per hunk of a file. */
  function HunkTable(i: nat, chunks: seq<Chunk>): (t: seq<seq<FlatRow>>)
    ensures |t| == |chunks|
  {
    seq(|chunks|, j requires 0 <= j < |chunks| => ChunkRows(i, chunks[j]))
  }

  /** The rows of all hunks of a file, in order. */
  function ChunksRows(i: nat, chunks: seq<Chunk>): seq<FlatRow>
  {
    Concat(HunkTable(i, chunks), 0, |chunks|)
  }

  predicate Expanded(files: seq<ProcessedFile>, collapsed: set<nat>, i: nat)
    requires i < |files|
  {
    i !in collapsed && !files[i].binary
  }

  /** The rows of file `i`: box top, hunks when expanded, box bottom. */
  function FileRows(files: seq<ProcessedFile>, collapsed: set<nat>, i: nat): seq<FlatRow>
    requires i < |files|
  {
    var body := if Expanded(files, collapsed, i) then ChunksRows(i, files[i].chunks) else [];
    [FileBoxTop(i, files[i])] + body + [FileBoxBottom(i)]
  }

  /** One block per file: nothing for a closed file, its rows otherwise. */
  function Shown(files: seq<ProcessedFile>, collapsed: set<nat>, closed: set<nat>): (t: seq<seq<FlatRow>>)
    ensures |t| == |files|
  {
    seq(|files|, j requires 0 <= j < |files| => if j in closed then [] else FileRows(files, collapsed, j))
  }

  /** What `flatten` returns, as a function of its inputs. */
  function FlatRows(files: seq<ProcessedFile>, collapsed: set<nat>, closed: set<nat>): seq<FlatRow>
  {
    [SummaryOf(files, closed)] + Concat(Shown(files, collapsed, closed), 0, |files|)
  }

  lemma ExpandedFileRows(files: seq<ProcessedFile>, collapsed: set<nat>, i: nat)
    requires i < |files| && Expanded(files, collapsed, i)
    ensures FileRows(files, collapsed, i) ==
      [FileBoxTop(i, files[i])] + ChunksRows(i, files[i].chunks) + [FileBoxBottom(i)]
  {
  }

  /** A collapsed or binary file contributes exactly its box top and bottom. */
  lemma CollapsedOrBinaryFile(files: seq<ProcessedFile>, collapsed: set<nat>, i: nat)
    requires i < |files| && (i in collapsed || files[i].binary)
    ensures FileRows(files, collapsed, i) == [FileBoxTop(i, files[i]), FileBoxBottom(i)]
  {
  }

  // ---------------------------------------------------------------------
  // The loops
  // ---------------------------------------------------------------------

  /** The totals loop of `flatten`: counts and sums over the files that are not closed. */
  method Totals(files: seq<ProcessedFile>, closed: set<nat>) returns (visibleFileCount: nat, totalAdditions: int, totalDeletions: int)
    ensures Summary(visibleFileCount, totalAdditions, totalDeletions) == SummaryOf(files, closed)
  {
    totalAdditions := 0;
    totalDeletions := 0;
    visibleFileCount := 0;
    for i := 0 to |files|
      invariant totalAdditions == SumAdditions(files, closed, i)
      invariant totalDeletions == SumDeletions(files, closed, i)
      invariant visibleFileCount == VisibleCount(files, closed, i)
    {
      if i in closed {
        continue;
      }
      totalAdditions := totalAdditions + files[i].additions;
      totalDeletions := totalDeletions + files[i].deletions;
      visibleFileCount := visibleFileCount + 1;
    }
  }

  /** The body of the hunk loop of `flatten`: the hunk's header, then each aligned row. */
  method PushHunk(rows: seq<FlatRow>, i: nat, chunk: Chunk) returns (rows': seq<FlatRow>)
    ensures rows' == rows + ChunkRows(i, chunk)
  {
    rows' := rows + [HunkHeader(i, chunk.content)];
    var aligned := AlignChunk(chunk);
    for k := 0 to |aligned|
      invariant rows' == rows + [HunkHeader(i, chunk.content)] + LinePairs(i, aligned, k)
    {
      rows' := rows' + [LinePair(i, aligned[k])];
      PairStep(rows + [HunkHeader(i, chunk.content)], i, aligned, k);
    }
    AppendAssoc(rows, [HunkHeader(i, chunk.content)], LinePairs(i, aligned, |aligned|));
  }

  /** The body of the file loop of `flatten` for a file that is not closed. */
  method PushFile(rows: seq<FlatRow>, files: seq<ProcessedFile>, collapsed: set<nat>, i: nat) returns (rows': seq<FlatRow>)
    requires i < |files|
    ensures rows' == rows + FileRows(files, collapsed, i)
  {
    var file := files[i];
    rows' := rows + [FileBoxTop(i, file)];
    ghost var body: seq<FlatRow> := [];
    if i !in collapsed && !file.binary {
      ghost var hunks := HunkTable(i, file.chunks);
      for j := 0 to |file.chunks|
        invariant rows' == rows + [FileBoxTop(i, file)] + Concat(hunks, 0, j)
      {
        rows' := PushHunk(rows', i, file.chunks[j]);
        BlockStep(rows + [FileBoxTop(i, file)], hunks, j, ChunkRows(i, file.chunks[j]));
      }
      body := Concat(hunks, 0, |file.chunks|);
    } else {
      AppendEmpty(rows + [FileBoxTop(i, file)]);
    }
    rows' := rows' + [FileBoxBottom(i)];
    AppendAssoc(rows, [FileBoxTop(i, file)], body);
    AppendAssoc(rows, [FileBoxTop(i, file)] + body, [FileBoxBottom(i)]);
  }

  /** `flatten`: the totals, the summary row, then the rows of each file that is not closed. */
  method Flatten(files: seq<ProcessedFile>, collapsed: set<nat>, closed: set<nat>) returns (rows: seq<FlatRow>)
    ensures rows == FlatRows(files, collapsed, closed)
  {
    var visibleFileCount, totalAdditions, totalDeletions := Totals(files, closed);
    rows := [Summary(visibleFileCount, totalAdditions, totalDeletions)];
    ghost var shown := Shown(files, collapsed, closed);
    ghost var head := rows;
    AppendEmpty(head);

    for i := 0 to |files|
      invariant rows == head + Concat(shown, 0, i)
    {
      if i in closed {
        ConcatSkip(shown, 0, i);
        continue;
      }
      ghost var before := rows;
      rows := PushFile(rows, files, collapsed, i);
      assert shown[i] == FileRows(files, collapsed, i);
      ConcatStep(head, shown, i, before, rows, shown[i]);
    }
  }

  /** One block emitted after the blocks before it. */
  lemma ConcatStep(head: seq<FlatRow>, blocks: seq<seq<FlatRow>>, i: nat, before: seq<FlatRow>, after: seq<FlatRow>, block: seq<FlatRow>)
    requires i < |blocks| && blocks[i] == block
    requires before == head + Concat(blocks, 0, i) && after == before + block
    ensures after == head + Concat(blocks, 0, i + 1)
  {
    ConcatAdd(blocks, 0, i);
    AppendAssoc(head, Concat(blocks, 0, i), block);
  }

  /** One aligned row emitted: the line pairs grow by its row. */
  lemma PairStep(prefix: seq<FlatRow>, i: nat, aligned: seq<AlignedRow>, k: nat)
    requires k < |aligned|
    ensures prefix + LinePairs(i, aligned, k) + [LinePair(i, aligned[k])] == prefix + LinePairs(i, aligned, k + 1)
  {
    AppendAssoc(prefix, LinePairs(i, aligned, k), [LinePair(i, aligned[k])]);
  }

  /** One hunk emitted: the concatenation of the hunks grows by its block. */
  lemma BlockStep(prefix: seq<FlatRow>, hunks: seq<seq<FlatRow>>, j: nat, block: seq<FlatRow>)
    requires j < |hunks| && hunks[j] == block
    ensures prefix + Concat(hunks, 0, j) + block == prefix + Concat(hunks, 0, j + 1)
  {
    ConcatAdd(hunks, 0, j);
    AppendAssoc(prefix, Concat(hunks, 0, j), block);
  }

  // ---------------------------------------------------------------------
  // The summary row
  // ---------------------------------------------------------------------

  /** An empty file list gives only a zero summary. */
  lemma EmptyInput(collapsed: set<nat>, closed: set<nat>)
    ensures FlatRows([], collapsed, closed) == [Summary(0, 0, 0)]
  {
  }

  /** The number of box-top rows. */
  function CountTops(rows: seq<FlatRow>): nat
  {
    if rows == [] then 0 else (if rows[0].FileBoxTop? then 1 else 0) + CountTops(rows[1..])
  }

  /** Sum of the `additions` of the files whose box top is shown. */
  function TopAdditions(rows: seq<FlatRow>): int
  {
    if rows == [] then 0 else (if rows[0].FileBoxTop? then rows[0].file.additions else 0) + TopAdditions(rows[1..])
  }

  /** Sum of the `deletions` of the files whose box top is shown. */
  function TopDeletions(rows: seq<FlatRow>): int
  {
    if rows == [] then 0 else (if rows[0].FileBoxTop? then rows[0].file.deletions else 0) + TopDeletions(rows[1..])
  }

  lemma {:induction false} TopsAppend(a: seq<FlatRow>, b: seq<FlatRow>)
    ensures CountTops(a + b) == CountTops(a) + CountTops(b)
    ensures TopAdditions(a + b) == TopAdditions(a) + TopAdditions(b)
    ensures TopDeletions(a + b) == TopDeletions(a) + TopDeletions(b)
  {
    if a == [] {
      assert a + b == b;
    } else {
      assert (a + b)[0] == a[0] && (a + b)[1..] == a[1..] + b;
      TopsAppend(a[1..], b);
    }
  }

  /** Hunk rows are headers and line pairs only. */
  predicate Interior(rows: seq<FlatRow>)
  {
    forall k :: 0 <= k < |rows| ==> rows[k].HunkHeader? || rows[k].LinePair?
  }

  lemma {:induction false} InteriorNoTops(rows: seq<FlatRow>)
    requires Interior(rows)
    ensures CountTops(rows) == 0 && TopAdditions(rows) == 0 && TopDeletions(rows) == 0
  {
    if rows != [] {
      assert Interior(rows[1..]) by {
        forall k | 0 <= k < |rows[1..]| ensures rows[1..][k].HunkHeader? || rows[1..][k].LinePair? {
          assert rows[1..][k] == rows[k + 1];
        }
      }
      InteriorNoTops(rows[1..]);
    }
  }

  /** Every row carries file index `i`. */
  predicate AllOf(rows: seq<FlatRow>, i: nat)
  {
    forall k :: 0 <= k < |rows| ==> !rows[k].Summary? && rows[k].fileIndex == i
  }

  lemma {:induction false} LinePairsShape(i: nat, aligned: seq<AlignedRow>, k: nat)
    requires k <= |aligned|
    ensures Interior(LinePairs(i, aligned, k)) && AllOf(LinePairs(i, aligned, k), i)
    ensures forall m :: 0 <= m < k ==> LinePairs(i, aligned, k)[m] == LinePair(i, aligned[m])
  {
    if k > 0 {
      LinePairsShape(i, aligned, k - 1);
    }
  }

  lemma {:induction false} InteriorAppend(a: seq<FlatRow>, b: seq<FlatRow>, i: nat)
    requires Interior(a) && AllOf(a, i) && Interior(b) && AllOf(b, i)
    ensures Interior(a + b) && AllOf(a + b, i)
  {
    forall k | 0 <= k < |a + b|
      ensures ((a + b)[k].HunkHeader? || (a + b)[k].LinePair?) && !(a + b)[k].Summary? && (a + b)[k].fileIndex == i
    {
      if k < |a| {
        assert (a + b)[k] == a[k];
      } else {
        assert (a + b)[k] == b[k - |a|];
      }
    }
  }

  /** Blocks that are all hunk rows of file `i` concatenate to hunk rows of file `i`. */
  lemma {:induction false} ConcatInterior(blocks: seq<seq<FlatRow>>, i: nat, n: nat)
    requires n <= |blocks|
    requires forall j :: 0 <= j < |blocks| ==> Interior(blocks[j]) && AllOf(blocks[j], i)
    ensures Interior(Concat(blocks, 0, n)) && AllOf(Concat(blocks, 0, n), i)
  {
    if n > 0 {
      ConcatInterior(blocks, i, n - 1);
      InteriorAppend(Concat(blocks, 0, n - 1), blocks[n - 1], i);
    }
  }

  lemma ChunkRowsShape(i: nat, chunk: Chunk)
    ensures Interior(ChunkRows(i, chunk)) && AllOf(ChunkRows(i, chunk), i)
  {
    var aligned := Align(chunk.changes);
    LinePairsShape(i, aligned, |aligned|);
    InteriorAppend([HunkHeader(i, chunk.content)], LinePairs(i, aligned, |aligned|), i);
  }

  lemma ChunksRowsShape(i: nat, chunks: seq<Chunk>)
    ensures Interior(ChunksRows(i, chunks)) && AllOf(ChunksRows(i, chunks), i)
  {
    var hunks := HunkTable(i, chunks);
    forall j | 0 <= j < |hunks| ensures Interior(hunks[j]) && AllOf(hunks[j], i) {
      ChunkRowsShape(i, chunks[j]);
    }
    ConcatInterior(hunks, i, |chunks|);
  }

  /**
   * Each file's rows all carry the file's index and show exactly one box
   * top, that of the file itself.
   */
  lemma FileRowsShape(files: seq<ProcessedFile>, collapsed: set<nat>, i: nat)
    requires i < |files|
    ensures AllOf(FileRows(files, collapsed, i), i)
    ensures CountTops(FileRows(files, collapsed, i)) == 1
    ensures TopAdditions(FileRows(files, collapsed, i)) == files[i].additions
    ensures TopDeletions(FileRows(files, collapsed, i)) == files[i].deletions
  {
    var body := if Expanded(files, collapsed, i) then ChunksRows(i, files[i].chunks) else [];
    ChunksRowsShape(i, files[i].chunks);
    InteriorNoTops(body);
    var top, bottom := [FileBoxTop(i, files[i])], [FileBoxBottom(i)];
    TopsAppend(top + body, bottom);
    TopsAppend(top, body);
    var all := top + body + bottom;
    forall k | 0 <= k < |all| ensures !all[k].Summary? && all[k].fileIndex == i {
      if k == 0 {
      } else if k < 1 + |body| {
        assert all[k] == body[k - 1];
      } else {
        assert all[k] == bottom[0];
      }
    }
  }

  /**
   * A table with an empty block for each closed file and a block with one
   * box top of that file otherwise concatenates to the visible count and
   * the visible sums.
   */
  lemma {:induction false} ConcatTops(files: seq<ProcessedFile>, closed: set<nat>, blocks: seq<seq<FlatRow>>, n: nat)
    requires |blocks| == |files| && n <= |files|
    requires forall j :: 0 <= j < |files| ==>
      if j in closed then blocks[j] == []
      else CountTops(blocks[j]) == 1 && TopAdditions(blocks[j]) == files[j].additions && TopDeletions(blocks[j]) == files[j].deletions
    ensures CountTops(Concat(blocks, 0, n)) == VisibleCount(files, closed, n)
    ensures TopAdditions(Concat(blocks, 0, n)) == SumAdditions(files, closed, n)
    ensures TopDeletions(Concat(blocks, 0, n)) == SumDeletions(files, closed, n)
  {
    if n > 0 {
      ConcatTops(files, closed, blocks, n - 1);
      TopsAppend(Concat(blocks, 0, n - 1), blocks[n - 1]);
    }
  }

  /**
   * The summary row comes first and agrees with the rows below it: it
   * counts the file boxes shown and sums their additions and deletions,
   * which are the files that are not closed.
   */
  lemma SummaryMatchesRows(files: seq<ProcessedFile>, collapsed: set<nat>, closed: set<nat>)
    ensures var rows := FlatRows(files, collapsed, closed);
      rows[0].Summary? &&
      rows[0].totalFiles == CountTops(rows) &&
      rows[0].additions == TopAdditions(rows) &&
      rows[0].deletions == TopDeletions(rows)
  {
    var shown := Shown(files, collapsed, closed);
    forall j | 0 <= j < |files| && j !in closed
      ensures CountTops(shown[j]) == 1 && TopAdditions(shown[j]) == files[j].additions && TopDeletions(shown[j]) == files[j].deletions
    {
      FileRowsShape(files, collapsed, j);
    }
    ConcatTops(files, closed, shown, |files|);
    var rows := FlatRows(files, collapsed, closed);
    assert rows[1..] == Concat(shown, 0, |files|);
  }

  // ---------------------------------------------------------------------
  // Order of the rows
  // ---------------------------------------------------------------------

  /** Every row belongs to a shown file with an index in `lo <= j < hi`. */
  predicate Tagged(rows: seq<FlatRow>, closed: set<nat>, lo: nat, hi: nat)
  {
    forall k :: 0 <= k < |rows| ==>
      !rows[k].Summary? && lo <= rows[k].fileIndex < hi && rows[k].fileIndex !in closed
  }

  predicate NonDecreasing(rows: seq<FlatRow>)
  {
    forall a, b :: 0 <= a <= b < |rows| && !rows[a].Summary? && !rows[b].Summary? ==>
      rows[a].fileIndex <= rows[b].fileIndex
  }

  lemma TaggedAppend(front: seq<FlatRow>, last: seq<FlatRow>, closed: set<nat>, lo: nat, j: nat)
    requires lo <= j && Tagged(front, closed, lo, j) && AllOf(last, j) && (j in closed ==> last == [])
    ensures Tagged(front + last, closed, lo, j + 1)
  {
    var all := front + last;
    forall k | 0 <= k < |all|
      ensures !all[k].Summary? && lo <= all[k].fileIndex < j + 1 && all[k].fileIndex !in closed
    {
      if k < |front| {
        assert all[k] == front[k];
      } else {
        assert all[k] == last[k - |front|];
      }
    }
  }

  lemma OrderedAppend(front: seq<FlatRow>, last: seq<FlatRow>, closed: set<nat>, lo: nat, j: nat)
    requires Tagged(front, closed, lo, j) && NonDecreasing(front) && AllOf(last, j)
    ensures NonDecreasing(front + last)
  {
    var all := front + last;
    forall a, b | 0 <= a <= b < |all| && !all[a].Summary? && !all[b].Summary?
      ensures all[a].fileIndex <= all[b].fileIndex
    {
      if b < |front| {
        assert all[a] == front[a] && all[b] == front[b];
      } else if a >= |front| {
        assert all[a] == last[a - |front|] && all[b] == last[b - |front|];
      } else {
        assert all[a] == front[a] && all[b] == last[b - |front|];
      }
    }
  }

  /** Blocks of files `j`, empty for closed files, concatenate in file order. */
  lemma {:induction false} ConcatOrdered(blocks: seq<seq<FlatRow>>, closed: set<nat>, lo: nat, hi: nat)
    requires lo <= hi <= |blocks|
    requires forall j :: 0 <= j < |blocks| ==> AllOf(blocks[j], j) && (j in closed ==> blocks[j] == [])
    ensures Tagged(Concat(blocks, lo, hi), closed, lo, hi) && NonDecreasing(Concat(blocks, lo, hi))
    decreases hi - lo
  {
    if hi > lo {
      ConcatOrdered(blocks, closed, lo, hi - 1);
      TaggedAppend(Concat(blocks, lo, hi - 1), blocks[hi - 1], closed, lo, hi - 1);
      OrderedAppend(Concat(blocks, lo, hi - 1), blocks[hi - 1], closed, lo, hi - 1);
    }
  }

  /** The per-file blocks carry their file's index, and closed files none. */
  lemma ShownShape(files: seq<ProcessedFile>, collapsed: set<nat>, closed: set<nat>)
    ensures var shown := Shown(files, collapsed, closed);
      forall j :: 0 <= j < |shown| ==> AllOf(shown[j], j) && (j in closed ==> shown[j] == [])
  {
    var shown := Shown(files, collapsed, closed);
    forall j | 0 <= j < |shown| ensures AllOf(shown[j], j) && (j in closed ==> shown[j] == []) {
      FileRowsShape(files, collapsed, j);
    }
  }

  /**
   * Exactly one summary row, the first; every other row names a file that
   * is not closed, by an index below the number of files; and the indices
   * never decrease down the list.
   */
  lemma RowsAreTagged(files: seq<ProcessedFile>, collapsed: set<nat>, closed: set<nat>)
    ensures var rows := FlatRows(files, collapsed, closed);
      rows[0].Summary? &&
      Tagged(rows[1..], closed, 0, |files|) &&
      NonDecreasing(rows[1..])
  {
    var shown := Shown(files, collapsed, closed);
    ShownShape(files, collapsed, closed);
    ConcatOrdered(shown, closed, 0, |files|);
    var rows := FlatRows(files, collapsed, closed);
    assert rows[1..] == Concat(shown, 0, |files|);
  }

  // ---------------------------------------------------------------------
  // Per-file segments
  // ---------------------------------------------------------------------

  /** The rows that belong to file `i`, in order. */
  function RowsOf(rows: seq<FlatRow>, i: nat): seq<FlatRow>
  {
    if rows == [] then []
    else (if !rows[0].Summary? && rows[0].fileIndex == i then [rows[0]] else []) + RowsOf(rows[1..], i)
  }

  lemma {:induction false} RowsOfAppend(a: seq<FlatRow>, b: seq<FlatRow>, i: nat)
    ensures RowsOf(a + b, i) == RowsOf(a, i) + RowsOf(b, i)
  {
    if a == [] {
      assert a + b == b;
    } else {
      assert (a + b)[0] == a[0] && (a + b)[1..] == a[1..] + b;
      RowsOfAppend(a[1..], b, i);
    }
  }

  lemma {:induction false} RowsOfAll(rows: seq<FlatRow>, j: nat, i: nat)
    requires AllOf(rows, j)
    ensures RowsOf(rows, i) == if i == j then rows else []
  {
    if rows != [] {
      assert AllOf(rows[1..], j) by {
        forall k | 0 <= k < |rows[1..]| ensures !rows[1..][k].Summary? && rows[1..][k].fileIndex == j {
          assert rows[1..][k] == rows[k + 1];
        }
      }
      RowsOfAll(rows[1..], j, i);
      if i == j {
        assert [rows[0]] + rows[1..] == rows;
      }
    }
  }

  lemma RowsOfStep(front: seq<FlatRow>, last: seq<FlatRow>, i: nat, m: nat, x: seq<FlatRow>)
    requires AllOf(last, m) && RowsOf(front, i) == (if i < m then x else [])
    ensures RowsOf(front + last, i) == if i < m then x else if i == m then last else []
  {
    RowsOfAppend(front, last, i);
    RowsOfAll(last, m, i);
    if i < m {
      AppendEmpty(x);
    } else if i == m {
      AppendEmpty(last);
    } else {
      AppendEmpty<FlatRow>([]);
    }
  }

  /** In a table of per-file blocks, the rows of file `i` are block `i`. */
  lemma {:induction false} ConcatRowsOf(blocks: seq<seq<FlatRow>>, n: nat, i: nat)
    requires n <= |blocks|
    requires forall j :: 0 <= j < |blocks| ==> AllOf(blocks[j], j)
    ensures RowsOf(Concat(blocks, 0, n), i) == if i < n then blocks[i] else []
  {
    if n > 0 {
      ConcatRowsOf(blocks, n - 1, i);
      var x := if i < n - 1 then blocks[i] else [];
      RowsOfStep(Concat(blocks, 0, n - 1), blocks[n - 1], i, n - 1, x);
    }
  }

  /**
   * The rows of file `i` are, in order, exactly its own rows: nothing for
   * a closed or out-of-range index, otherwise its box top first, its hunk
   * headers and line pairs when expanded, and its box bottom last.
   */
  lemma FileSegment(files: seq<ProcessedFile>, collapsed: set<nat>, closed: set<nat>, i: nat)
    ensures RowsOf(FlatRows(files, collapsed, closed), i) ==
      if i < |files| && i !in closed then FileRows(files, collapsed, i) else []
  {
    var shown := Shown(files, collapsed, closed);
    var head := [SummaryOf(files, closed)];
    var body := Concat(shown, 0, |files|);
    RowsOfAppend(head, body, i);
    assert RowsOf(head, i) == [];
    ShownShape(files, collapsed, closed);
    ConcatRowsOf(shown, |files|, i);
    AppendEmpty(RowsOf(body, i));
  }

  /** Dropping the first `lo` blocks shifts the indices of the rest down by `lo`. */
  lemma {:induction false} ConcatShift(blocks: seq<seq<FlatRow>>, lo: nat, hi: nat)
    requires lo <= hi <= |blocks|
    ensures Concat(blocks, lo, hi) == Concat(blocks[lo..], 0, hi - lo)
    decreases hi - lo
  {
    if hi > lo {
      ConcatShift(blocks, lo, hi - 1);
      assert blocks[lo..][hi - 1 - lo] == blocks[hi - 1];
    }
  }

  /**
   * An expanded file's hunks appear in order: the rows of hunk `j`, its
   * header with the hunk's banner and then its aligned rows as line pairs,
   * come right after the rows of the hunks before it (so at offset
   * `HunksLength(chunks, j)`) and right before the rows of the hunks after it.
   */
  lemma ExpandedHunks(i: nat, chunks: seq<Chunk>, j: nat)
    requires j < |chunks|
    ensures var aligned := Align(chunks[j].changes);
      ChunksRows(i, chunks) ==
        ChunksRows(i, chunks[..j]) + [HunkHeader(i, chunks[j].content)] + LinePairs(i, aligned, |aligned|)
        + ChunksRows(i, chunks[j + 1..])
    ensures |ChunksRows(i, chunks[..j])| == HunksLength(chunks, j)
  {
    var hunks := HunkTable(i, chunks);
    var aligned := Align(chunks[j].changes);
    ConcatSegment(hunks, 0, j, |chunks|);
    HunksBefore(i, chunks, j);
    HunksAfter(i, chunks, j + 1);
    AppendAssoc(Concat(hunks, 0, j), [HunkHeader(i, chunks[j].content)], LinePairs(i, aligned, |aligned|));
  }

  /** The blocks before hunk `j` are the rows of the first `j` hunks. */
  lemma HunksBefore(i: nat, chunks: seq<Chunk>, j: nat)
    requires j <= |chunks|
    ensures Concat(HunkTable(i, chunks), 0, j) == ChunksRows(i, chunks[..j])
    ensures |ChunksRows(i, chunks[..j])| == HunksLength(chunks, j)
  {
    var hunks := HunkTable(i, chunks);
    var front := HunkTable(i, chunks[..j]);
    forall m | 0 <= m < j ensures front[m] == hunks[m] {
      assert chunks[..j][m] == chunks[m];
    }
    ConcatAgree(front, hunks, 0, j);
    HunkTableLength(hunks, chunks, j);
  }

  /** The blocks from hunk `j` on are the rows of the hunks from `j` on. */
  lemma HunksAfter(i: nat, chunks: seq<Chunk>, j: nat)
    requires j <= |chunks|
    ensures Concat(HunkTable(i, chunks), j, |chunks|) == ChunksRows(i, chunks[j..])
  {
    var hunks := HunkTable(i, chunks);
    var back := HunkTable(i, chunks[j..]);
    forall m | 0 <= m < |back| ensures back[m] == hunks[j..][m] {
      assert chunks[j..][m] == chunks[j + m];
    }
    assert back == hunks[j..];
    ConcatShift(hunks, j, |chunks|);
  }

  // ---------------------------------------------------------------------
  // Length
  // ---------------------------------------------------------------------

  /** Rows of the first `n` hunks: one header plus the aligned rows of each. */
  function HunksLength(chunks: seq<Chunk>, n: nat): nat
    requires n <= |chunks|
  {
    if n == 0 then 0 else HunksLength(chunks, n - 1) + 1 + |Align(chunks[n - 1].changes)|
  }

  /** Rows of file `i`: its two box rows plus its hunk rows when expanded. */
  function FileLength(files: seq<ProcessedFile>, collapsed: set<nat>, i: nat): nat
    requires i < |files|
  {
    2 + (if Expanded(files, collapsed, i) then HunksLength(files[i].chunks, |files[i].chunks|) else 0)
  }

  /** Rows of the shown files below `n`. */
  function BodyLength(files: seq<ProcessedFile>, collapsed: set<nat>, closed: set<nat>, n: nat): nat
    requires n <= |files|
  {
    if n == 0 then 0
    else BodyLength(files, collapsed, closed, n - 1) + (if n - 1 in closed then 0 else FileLength(files, collapsed, n - 1))
  }

  lemma {:induction false} HunkTableLength(hunks: seq<seq<FlatRow>>, chunks: seq<Chunk>, n: nat)
    requires |hunks| == |chunks| && n <= |chunks|
    requires forall j :: 0 <= j < |chunks| ==> |hunks[j]| == 1 + |Align(chunks[j].changes)|
    ensures |Concat(hunks, 0, n)| == HunksLength(chunks, n)
  {
    if n > 0 {
      HunkTableLength(hunks, chunks, n - 1);
    }
  }

  lemma FileRowsLength(files: seq<ProcessedFile>, collapsed: set<nat>, i: nat)
    requires i < |files|
    ensures |FileRows(files, collapsed, i)| == FileLength(files, collapsed, i)
  {
    var chunks := files[i].chunks;
    HunkTableLength(HunkTable(i, chunks), chunks, |chunks|);
  }

  lemma {:induction false} ShownLength(files: seq<ProcessedFile>, collapsed: set<nat>, closed: set<nat>, blocks: seq<seq<FlatRow>>, n: nat)
    requires |blocks| == |files| && n <= |files|
    requires forall j :: 0 <= j < |files| ==> |blocks[j]| == if j in closed then 0 else FileLength(files, collapsed, j)
    ensures |Concat(blocks, 0, n)| == BodyLength(files, collapsed, closed, n)
  {
    if n > 0 {
      ShownLength(files, collapsed, closed, blocks, n - 1);
    }
  }

  /** The list is one summary row plus the rows of each shown file. */
  lemma FlatLength(files: seq<ProcessedFile>, collapsed: set<nat>, closed: set<nat>)
    ensures |FlatRows(files, collapsed, closed)| == 1 + BodyLength(files, collapsed, closed, |files|)
  {
    var shown := Shown(files, collapsed, closed);
    forall j | 0 <= j < |files| ensures |shown[j]| == if j in closed then 0 else FileLength(files, collapsed, j) {
      FileRowsLength(files, collapsed, j);
    }
    ShownLength(files, collapsed, closed, shown, |files|);
  }

  // ---------------------------------------------------------------------
  // Collapsing one file
  // ---------------------------------------------------------------------

  /** Collapsing file `k` leaves every other file's rows alone. */
  lemma FileRowsIgnore(files: seq<ProcessedFile>, collapsed: set<nat>, k: nat, j: nat)
    requires j < |files| && j != k
    ensures FileRows(files, collapsed + {k}, j) == FileRows(files, collapsed, j)
  {
    assert Expanded(files, collapsed + {k}, j) == Expanded(files, collapsed, j);
  }

  /** Collapsing file `k` leaves the blocks before it and after it alone. */
  lemma ShownAgreeOutside(files: seq<ProcessedFile>, collapsed: set<nat>, closed: set<nat>, k: nat)
    requires k < |files|
    ensures var sh, sh' := Shown(files, collapsed, closed), Shown(files, collapsed + {k}, closed);
      Concat(sh', 0, k) == Concat(sh, 0, k) && Concat(sh', k + 1, |files|) == Concat(sh, k + 1, |files|)
  {
    var sh, sh' := Shown(files, collapsed, closed), Shown(files, collapsed + {k}, closed);
    forall j | 0 <= j < |files| && j != k ensures sh'[j] == sh[j] {
      FileRowsIgnore(files, collapsed, k, j);
    }
    ConcatAgree(sh, sh', 0, k);
    ConcatAgree(sh, sh', k + 1, |files|);
  }

  /** The rows above file `k`'s rows: the summary and the shown files before `k`. */
  function RowsBefore(files: seq<ProcessedFile>, collapsed: set<nat>, closed: set<nat>, k: nat): seq<FlatRow>
    requires k <= |files|
  {
    [SummaryOf(files, closed)] + Concat(Shown(files, collapsed, closed), 0, k)
  }

  /** The rows below file `k`'s rows: the shown files after `k`. */
  function RowsAfter(files: seq<ProcessedFile>, collapsed: set<nat>, closed: set<nat>, k: nat): seq<FlatRow>
    requires k < |files|
  {
    Concat(Shown(files, collapsed, closed), k + 1, |files|)
  }

  /**
   * Collapsing a shown file `k` keeps every row above its box top and
   * every row below its box bottom, and replaces its own rows by the box
   * top and bottom alone. Its box top sits at index `|RowsBefore(..)|`.
   */
  lemma CollapseOne(files: seq<ProcessedFile>, collapsed: set<nat>, closed: set<nat>, k: nat)
    requires k < |files| && k !in closed
    ensures var above, below := RowsBefore(files, collapsed, closed, k), RowsAfter(files, collapsed, closed, k);
      FlatRows(files, collapsed, closed) == above + FileRows(files, collapsed, k) + below &&
      FlatRows(files, collapsed + {k}, closed) == above + [FileBoxTop(k, files[k]), FileBoxBottom(k)] + below
  {
    var n := |files|;
    var sh, sh' := Shown(files, collapsed, closed), Shown(files, collapsed + {k}, closed);
    var head := [SummaryOf(files, closed)];
    ConcatSegment(sh, 0, k, n);
    ConcatSegment(sh', 0, k, n);
    ShownAgreeOutside(files, collapsed, closed, k);
    CollapsedOrBinaryFile(files, collapsed + {k}, k);
    AppendAssoc(head, Concat(sh, 0, k) + sh[k], Concat(sh, k + 1, n));
    AppendAssoc(head, Concat(sh, 0, k), sh[k]);
    AppendAssoc(head, Concat(sh, 0, k) + sh'[k], Concat(sh, k + 1, n));
    AppendAssoc(head, Concat(sh, 0, k), sh'[k]);
  }

  /** The box top of a shown file `k` is the row at index `|RowsBefore(..)|`. */
  lemma TopAt(files: seq<ProcessedFile>, collapsed: set<nat>, closed: set<nat>, k: nat)
    requires k < |files| && k !in closed
    ensures var rows, p := FlatRows(files, collapsed, closed), |RowsBefore(files, collapsed, closed, k)|;
      p < |rows| && rows[p] == FileBoxTop(k, files[k])
  {
    CollapseOne(files, collapsed, closed, k);
  }
}
