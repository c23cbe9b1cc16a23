/**
 * The navigation searches run over the flattened rows: the box tops come
 * in file order, one per file that is not closed, so `n` and `p` move to
 * the next and previous file that is not closed, and the row a file jump
 * lands on is that file's own box top.
 */
module Browsing {
  import opened Types
  import F = Flatten
  import N = Navigation

  /** The file indices below `n` that are not closed, ascending. */
  function Visible(closed: set<nat>, n: nat): seq<nat>
  {
    if n == 0 then [] else Visible(closed, n - 1) + (if n - 1 in closed then [] else [n - 1])
  }

  /** `Visible` holds exactly the indices below `n` that are not closed, each once, ascending. */
  lemma {:induction false} VisibleShape(closed: set<nat>, n: nat)
    ensures forall x: nat :: x in Visible(closed, n) <==> x < n && x !in closed
    ensures forall a, b :: 0 <= a < b < |Visible(closed, n)| ==> Visible(closed, n)[a] < Visible(closed, n)[b]
  {
    if n > 0 {
      VisibleShape(closed, n - 1);
      var v := Visible(closed, n - 1);
      var t: seq<nat> := if n - 1 in closed then [] else [n - 1];
      var w := v + t;
      assert Visible(closed, n) == w;
      forall x: nat ensures x in w <==> x < n && x !in closed {
        assert x in w <==> x in v || x in t;
      }
      forall a, b | 0 <= a < b < |w| ensures w[a] < w[b] {
        if b >= |v| {
          assert w[a] == v[a] && v[a] in v;
        }
      }
    }
  }

  lemma {:induction false} OrderAppend(a: seq<FlatRow>, b: seq<FlatRow>)
    ensures N.Order(a + b) == N.Order(a) + N.Order(b)
    decreases |a|
  {
    if a == [] {
      assert a + b == b;
    } else {
      assert (a + b)[0] == a[0];
      assert (a + b)[1..] == a[1..] + b;
      OrderAppend(a[1..], b);
    }
  }

  /** Hunk rows hold no box top. */
  lemma {:induction false} OrderInterior(rows: seq<FlatRow>)
    requires F.Interior(rows)
    ensures N.Order(rows) == []
    decreases |rows|
  {
    if rows != [] {
      assert !rows[0].FileBoxTop?;
      assert F.Interior(rows[1..]) by {
        forall k | 0 <= k < |rows[1..]| ensures rows[1..][k].HunkHeader? || rows[1..][k].LinePair? {
          assert rows[1..][k] == rows[k + 1];
        }
      }
      OrderInterior(rows[1..]);
    }
  }

  lemma OrderOne(r: FlatRow)
    ensures N.Order([r]) == if r.FileBoxTop? then [r.fileIndex] else []
  {
    assert [r][1..] == [];
  }

  /** A file's rows hold exactly one box top, its own. */
  lemma OrderFileRows(files: seq<ProcessedFile>, collapsed: set<nat>, i: nat)
    requires i < |files|
    ensures N.Order(F.FileRows(files, collapsed, i)) == [i]
  {
    var top, bottom := FileBoxTop(i, files[i]), FileBoxBottom(i);
    var body := if F.Expanded(files, collapsed, i) then F.ChunksRows(i, files[i].chunks) else [];
    if F.Expanded(files, collapsed, i) {
      F.ChunksRowsShape(i, files[i].chunks);
    }
    OrderInterior(body);
    OrderAppend([top] + body, [bottom]);
    OrderAppend([top], body);
    OrderOne(top);
    OrderOne(bottom);
  }

  /** A table of per-file blocks, one box top per shown file, lists the shown files in order. */
  lemma {:induction false} OrderConcat(blocks: seq<seq<FlatRow>>, closed: set<nat>, n: nat)
    requires n <= |blocks|
    requires forall j :: 0 <= j < |blocks| ==> N.Order(blocks[j]) == if j in closed then [] else [j]
    ensures N.Order(F.Concat(blocks, 0, n)) == Visible(closed, n)
  {
    if n > 0 {
      OrderConcat(blocks, closed, n - 1);
      F.ConcatAdd(blocks, 0, n - 1);
      OrderAppend(F.Concat(blocks, 0, n - 1), blocks[n - 1]);
    }
  }

  /** The box tops of the flattened rows are the files that are not closed, in index order. */
  lemma FlatOrder(files: seq<ProcessedFile>, collapsed: set<nat>, closed: set<nat>)
    ensures N.Order(F.FlatRows(files, collapsed, closed)) == Visible(closed, |files|)
  {
    var shown := F.Shown(files, collapsed, closed);
    forall j | 0 <= j < |shown| ensures N.Order(shown[j]) == if j in closed then [] else [j] {
      if j in closed {
        assert shown[j] == [];
      } else {
        OrderFileRows(files, collapsed, j);
      }
    }
    OrderConcat(shown, closed, |files|);
    OrderAppend([F.SummaryOf(files, closed)], F.Concat(shown, 0, |files|));
    OrderOne(F.SummaryOf(files, closed));
  }

  /** In an ascending order, the entry after `x` is the least entry above `x`. */
  lemma NextInAscending(o: seq<nat>, x: nat)
    requires forall a, b :: 0 <= a < b < |o| ==> o[a] < o[b]
    requires x in o
    ensures var r := N.NextIn(o, x);
      (r == -1 <==> forall e :: e in o ==> e <= x) &&
      (r != -1 ==> r in o && x < r && forall e :: e in o && x < e ==> r <= e)
  {
    var j := N.FirstPos(o, x);
    if j + 1 < |o| {
      var r := o[j + 1];
      assert x < r && r in o;
      forall e | e in o && x < e ensures r <= e {
        var m :| 0 <= m < |o| && o[m] == e;
        assert j < m;
      }
    } else {
      forall e | e in o ensures e <= x {
        var m :| 0 <= m < |o| && o[m] == e;
        assert m <= j;
      }
    }
  }

  /** In an ascending order, the entry before `x` is the greatest entry below `x`. */
  lemma PrevInAscending(o: seq<nat>, x: nat)
    requires forall a, b :: 0 <= a < b < |o| ==> o[a] < o[b]
    requires x in o
    ensures var r := N.PrevIn(o, x);
      (r == -1 <==> forall e :: e in o ==> x <= e) &&
      (r != -1 ==> r in o && r < x && forall e :: e in o && e < x ==> e <= r)
  {
    var j := N.FirstPos(o, x);
    if j > 0 {
      var r := o[j - 1];
      assert r < x && r in o;
      forall e | e in o && e < x ensures e <= r {
        var m :| 0 <= m < |o| && o[m] == e;
        assert m < j;
      }
    } else {
      forall e | e in o ensures x <= e {
        var m :| 0 <= m < |o| && o[m] == e;
        assert j <= m;
      }
    }
  }

  /**
   * On the flattened rows, the file after shown file `i` is the next index
   * above `i` that is not closed, and -1 when every later file is closed.
   */
  lemma NextFileIsNextShown(files: seq<ProcessedFile>, collapsed: set<nat>, closed: set<nat>, i: nat)
    requires i < |files| && i !in closed
    ensures var r := N.NextIn(N.Order(F.FlatRows(files, collapsed, closed)), i);
      (r == -1 <==> forall j :: i < j < |files| ==> j in closed) &&
      (r != -1 ==> i < r < |files| && r !in closed && forall j :: i < j < r ==> j in closed)
  {
    var o := Visible(closed, |files|);
    VisibleShape(closed, |files|);
    FlatOrder(files, collapsed, closed);
    NextInAscending(o, i);
    var r := N.NextIn(o, i);
    if r == -1 {
      forall j | i < j < |files| ensures j in closed {
        assert j in o <==> j !in closed;
      }
    } else {
      forall j | i < j < r ensures j in closed {
        assert j in o <==> j !in closed;
      }
      assert r in o;
    }
  }

  /**
   * On the flattened rows, the file before shown file `i` is the nearest
   * index below `i` that is not closed, and -1 when every earlier file is
   * closed.
   */
  lemma PrevFileIsPrevShown(files: seq<ProcessedFile>, collapsed: set<nat>, closed: set<nat>, i: nat)
    requires i < |files| && i !in closed
    ensures var r := N.PrevIn(N.Order(F.FlatRows(files, collapsed, closed)), i);
      (r == -1 <==> forall j :: 0 <= j < i ==> j in closed) &&
      (r != -1 ==> 0 <= r < i && r !in closed && forall j :: r < j < i ==> j in closed)
  {
    var o := Visible(closed, |files|);
    VisibleShape(closed, |files|);
    FlatOrder(files, collapsed, closed);
    PrevInAscending(o, i);
    var r := N.PrevIn(o, i);
    if r == -1 {
      forall j | 0 <= j < i ensures j in closed {
        assert j in o <==> j !in closed;
      }
    } else {
      forall j | r < j < i ensures j in closed {
        assert j in o <==> j !in closed;
      }
      assert r in o;
    }
  }

  /**
   * The row `findFileRow` finds for a shown file is its box top, just
   * below the summary and the files before it; the current file there is
   * that file.
   */
  lemma FindShownFile(files: seq<ProcessedFile>, collapsed: set<nat>, closed: set<nat>, k: nat)
    requires k < |files| && k !in closed
    ensures var rows, p := F.FlatRows(files, collapsed, closed), |F.RowsBefore(files, collapsed, closed, k)|;
      N.FindRow(rows, k) == p && N.CurrentFile(rows, p) == k
  {
    var rows := F.FlatRows(files, collapsed, closed);
    var above := F.RowsBefore(files, collapsed, closed, k);
    var p := |above|;
    var shown := F.Shown(files, collapsed, closed);
    F.CollapseOne(files, collapsed, closed, k);
    F.TopAt(files, collapsed, closed, k);
    F.ShownShape(files, collapsed, closed);
    F.ConcatOrdered(shown, closed, 0, k);
    var front := F.Concat(shown, 0, k);
    assert above == [F.SummaryOf(files, closed)] + front;
    forall u | 0 <= u < p ensures !(rows[u].FileBoxTop? && rows[u].fileIndex == k) {
      assert rows[u] == above[u];
      if u > 0 {
        assert above[u] == front[u - 1];
      }
    }
    var r := N.FindRow(rows, k);
    assert r == p;
    N.CurrentFileIsNearest(rows, p, p);
  }
}
