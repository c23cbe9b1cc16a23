/**
 * The row aligner: one hunk's change lines become side-by-side rows.
 * Context lines go to both sides; runs of deletions and additions are
 * buffered and paired off by position, the shorter side padded with
 * missing slots.
 */
module Aligner {
  import opened Types

  function Max(a: int, b: int): int { if a >= b then a else b }

  predicate AllDels(s: seq<Change>) { forall k :: 0 <= k < |s| ==> s[k].Del? }
  predicate AllAdds(s: seq<Change>) { forall k :: 0 <= k < |s| ==> s[k].Add? }

  /**
   * The slot a buffered deletion or addition fills: its line number and
   * content. Context lines are never buffered; for them this gives the
   * old-side number.
   */
  function SideOf(c: Change): AlignedSide
  {
    match c
    case Normal(content, ln1, _) => AlignedSide(ln1, content)
    case Del(content, ln) => AlignedSide(ln, content)
    case Add(content, ln) => AlignedSide(ln, content)
  }

  /** The context row of a context line: old number on the left, new on the right. */
  function ContextRowOf(c: Change): AlignedRow
    requires c.Normal?
  {
    AlignedRow(ContextRow, Some(AlignedSide(c.ln1, c.content)), Some(AlignedSide(c.ln2, c.content)))
  }

  /** Row `i` of a flushed block: the i-th deletion beside the i-th addition. */
  function PairRow(dels: seq<Change>, adds: seq<Change>, i: nat): AlignedRow
  {
    AlignedRow(ChangeRow,
      if i < |dels| then Some(SideOf(dels[i])) else None,
      if i < |adds| then Some(SideOf(adds[i])) else None)
  }

  /** The rows one flush of the buffers emits, built a row at a time from the front. */
  function Pair(dels: seq<Change>, adds: seq<Change>): (r: seq<AlignedRow>)
    ensures |r| == Max(|dels|, |adds|)
    decreases |dels| + |adds|
  {
    if dels == [] && adds == [] then []
    else
      [PairRow(dels, adds, 0)] +
      Pair(if dels == [] then [] else dels[1..], if adds == [] then [] else adds[1..])
  }

  /**
   * A flush emits max(|dels|, |adds|) rows, and row `i` pairs `dels[i]` with
   * `adds[i]`, a missing slot where either buffer has no entry `i`.
   */
  lemma {:induction false} PairAt(dels: seq<Change>, adds: seq<Change>)
    ensures |Pair(dels, adds)| == Max(|dels|, |adds|)
    ensures forall i :: 0 <= i < |Pair(dels, adds)| ==> Pair(dels, adds)[i] == PairRow(dels, adds, i)
    decreases |dels| + |adds|
  {
    if dels != [] || adds != [] {
      var d' := if dels == [] then [] else dels[1..];
      var a' := if adds == [] then [] else adds[1..];
      PairAt(d', a');
      var p := Pair(dels, adds);
      assert p == [PairRow(dels, adds, 0)] + Pair(d', a');
      forall i | 0 < i < |p| ensures p[i] == PairRow(dels, adds, i) {
        assert p[i] == Pair(d', a')[i - 1] == PairRow(d', a', i - 1);
      }
    }
  }

  /**
   * The rows produced from the remaining lines `cs` when `dels` and `adds`
   * are pending: the single pass of the aligner, read as a function.
   */
  function AlignFrom(cs: seq<Change>, dels: seq<Change>, adds: seq<Change>): seq<AlignedRow>
    decreases |cs|
  {
    if cs == [] then Pair(dels, adds)
    else if cs[0].Normal? then Pair(dels, adds) + [ContextRowOf(cs[0])] + AlignFrom(cs[1..], [], [])
    else if cs[0].Del? then
      (if adds == [] then AlignFrom(cs[1..], dels + [cs[0]], [])
       else Pair(dels, adds) + AlignFrom(cs[1..], [cs[0]], []))
    else AlignFrom(cs[1..], dels, adds + [cs[0]])
  }

  /** The aligned rows of a hunk's change lines. */
  function Align(cs: seq<Change>): seq<AlignedRow>
  {
    AlignFrom(cs, [], [])
  }

  /** One step of the single pass, for the first remaining line. */
  lemma AlignFromStep(cs: seq<Change>, dels: seq<Change>, adds: seq<Change>)
    requires cs != []
    ensures cs[0].Normal? ==>
      AlignFrom(cs, dels, adds) == Pair(dels, adds) + [ContextRowOf(cs[0])] + AlignFrom(cs[1..], [], [])
    ensures cs[0].Del? && adds == [] ==> AlignFrom(cs, dels, adds) == AlignFrom(cs[1..], dels + [cs[0]], [])
    ensures cs[0].Del? && adds != [] ==> AlignFrom(cs, dels, adds) == Pair(dels, adds) + AlignFrom(cs[1..], [cs[0]], [])
    ensures cs[0].Add? ==> AlignFrom(cs, dels, adds) == AlignFrom(cs[1..], dels, adds + [cs[0]])
  {
  }
  lemma AlignFromNormal(cs: seq<Change>, dels: seq<Change>, adds: seq<Change>)
    requires cs != [] && cs[0].Normal?
    ensures AlignFrom(cs, dels, adds) == Pair(dels, adds) + [ContextRowOf(cs[0])] + AlignFrom(cs[1..], [], [])
  {
  }

  lemma AlignFromBuffer(cs: seq<Change>, dels: seq<Change>)
    requires cs != [] && cs[0].Del?
    ensures AlignFrom(cs, dels, []) == AlignFrom(cs[1..], dels + [cs[0]], [])
  {
  }

  lemma AlignFromFlush(cs: seq<Change>, dels: seq<Change>, adds: seq<Change>)
    requires cs != [] && cs[0].Del? && adds != []
    ensures AlignFrom(cs, dels, adds) == Pair(dels, adds) + AlignFrom(cs[1..], [cs[0]], [])
  {
  }

  lemma AlignFromAdd(cs: seq<Change>, dels: seq<Change>, adds: seq<Change>)
    requires cs != [] && cs[0].Add?
    ensures AlignFrom(cs, dels, adds) == AlignFrom(cs[1..], dels, adds + [cs[0]])
  {
  }


  /** `flushBlock`: append the paired rows of the buffers and empty both. */
  method FlushBlock(rows: seq<AlignedRow>, dels: seq<Change>, adds: seq<Change>)
    returns (rows': seq<AlignedRow>, dels': seq<Change>, adds': seq<Change>)
    ensures rows' == rows + Pair(dels, adds)
    ensures |rows'| == |rows| + Max(|dels|, |adds|)
    ensures dels' == [] && adds' == []
  {
    ghost var block := Pair(dels, adds);
    PairAt(dels, adds);
    var len := Max(|dels|, |adds|);
    rows' := rows;
    for i := 0 to len
      invariant rows' == rows + block[..i]
    {
      var del := if i < |dels| then Some(dels[i]) else None;
      var add := if i < |adds| then Some(adds[i]) else None;
      rows' := rows' + [AlignedRow(ChangeRow,
        if del.Some? then Some(SideOf(del.value)) else None,
        if add.Some? then Some(SideOf(add.value)) else None)];
      assert block[..i + 1] == block[..i] + [block[i]];
    }
    assert block[..len] == block;
    dels', adds' := [], [];
  }

  /** `alignChunk`: one pass over the chunk's lines with two pending buffers. */
  method AlignChunk(chunk: Chunk) returns (rows: seq<AlignedRow>)
    ensures rows == Align(chunk.changes)
  {
    var changes := chunk.changes;
    rows := [];
    var dels: seq<Change> := [];
    var adds: seq<Change> := [];
    for i := 0 to |changes|
      invariant rows + AlignFrom(changes[i..], dels, adds) == Align(changes)
    {
      var change := changes[i];
      assert changes[i..][0] == change && changes[i..][1..] == changes[i + 1..];
      AlignFromStep(changes[i..], dels, adds);
      ghost var rows0 := rows;
      match change {
        case Normal(_, _, _) =>
          rows, dels, adds := FlushBlock(rows, dels, adds);
          rows := rows + [AlignedRow(ContextRow,
            Some(AlignedSide(change.ln1, change.content)),
            Some(AlignedSide(change.ln2, change.content)))];
        case Del(_, _) =>
          if |adds| == 0 {
            dels := dels + [change];
          } else {
            rows, dels, adds := FlushBlock(rows, dels, adds);
            dels := dels + [change];
            assert dels == [change];
          }
        case Add(_, _) =>
          adds := adds + [change];
      }
    }
    assert changes[|changes|..] == [];
    rows, dels, adds := FlushBlock(rows, dels, adds);
  }

  // ---------------------------------------------------------------------
  // Properties of the aligned rows
  // ---------------------------------------------------------------------

  /**
   * A context row shows the same content with both numbers; a change row
   * has at least one slot.
   */
  predicate WellFormedRow(r: AlignedRow)
  {
    match r.rowType
    case ContextRow => r.left.Some? && r.right.Some? && r.left.value.content == r.right.value.content
    case ChangeRow => r.left.Some? || r.right.Some?
  }

  predicate AllWellFormed(rows: seq<AlignedRow>)
  {
    forall k :: 0 <= k < |rows| ==> WellFormedRow(rows[k])
  }

  /** The left slot of a change row, if present. */
  function LeftOf(r: AlignedRow): seq<AlignedSide>
  {
    if r.rowType == ChangeRow && r.left.Some? then [r.left.value] else []
  }

  /** The right slot of a change row, if present. */
  function RightOf(r: AlignedRow): seq<AlignedSide>
  {
    if r.rowType == ChangeRow && r.right.Some? then [r.right.value] else []
  }

  function ContextOf(r: AlignedRow): seq<AlignedRow>
  {
    if r.rowType == ContextRow then [r] else []
  }

  function FullOf(r: AlignedRow): nat
  {
    if r.rowType == ChangeRow && r.left.Some? && r.right.Some? then 1 else 0
  }

  /** The present left slots of the change rows, in order. */
  function LeftSlots(rows: seq<AlignedRow>): seq<AlignedSide>
  {
    if rows == [] then [] else LeftOf(rows[0]) + LeftSlots(rows[1..])
  }

  /** The present right slots of the change rows, in order. */
  function RightSlots(rows: seq<AlignedRow>): seq<AlignedSide>
  {
    if rows == [] then [] else RightOf(rows[0]) + RightSlots(rows[1..])
  }

  /** The context rows, in order. */
  function ContextRows(rows: seq<AlignedRow>): seq<AlignedRow>
  {
    if rows == [] then [] else ContextOf(rows[0]) + ContextRows(rows[1..])
  }

  /** The number of change rows with both slots present. */
  function FullRows(rows: seq<AlignedRow>): nat
  {
    if rows == [] then 0 else FullOf(rows[0]) + FullRows(rows[1..])
  }

  /** The slots of a buffer, in order. */
  function Sides(s: seq<Change>): seq<AlignedSide>
  {
    if s == [] then [] else [SideOf(s[0])] + Sides(s[1..])
  }

  /** The slots of the deleted lines of `cs`, in input order. */
  function DelSides(cs: seq<Change>): seq<AlignedSide>
  {
    if cs == [] then []
    else (if cs[0].Del? then [SideOf(cs[0])] else []) + DelSides(cs[1..])
  }

  /** The slots of the added lines of `cs`, in input order. */
  function AddSides(cs: seq<Change>): seq<AlignedSide>
  {
    if cs == [] then []
    else (if cs[0].Add? then [SideOf(cs[0])] else []) + AddSides(cs[1..])
  }

  /** The context rows the context lines of `cs` call for, in input order. */
  function NormalRows(cs: seq<Change>): seq<AlignedRow>
  {
    if cs == [] then []
    else (if cs[0].Normal? then [ContextRowOf(cs[0])] else []) + NormalRows(cs[1..])
  }

  lemma {:induction false} LeftSlotsAppend(a: seq<AlignedRow>, b: seq<AlignedRow>)
    ensures LeftSlots(a + b) == LeftSlots(a) + LeftSlots(b)
  {
    if a == [] {
      assert a + b == b;
    } else {
      assert (a + b)[0] == a[0] && (a + b)[1..] == a[1..] + b;
      LeftSlotsAppend(a[1..], b);
    }
  }

  lemma {:induction false} RightSlotsAppend(a: seq<AlignedRow>, b: seq<AlignedRow>)
    ensures RightSlots(a + b) == RightSlots(a) + RightSlots(b)
  {
    if a == [] {
      assert a + b == b;
    } else {
      assert (a + b)[0] == a[0] && (a + b)[1..] == a[1..] + b;
      RightSlotsAppend(a[1..], b);
    }
  }

  lemma {:induction false} ContextRowsAppend(a: seq<AlignedRow>, b: seq<AlignedRow>)
    ensures ContextRows(a + b) == ContextRows(a) + ContextRows(b)
  {
    if a == [] {
      assert a + b == b;
    } else {
      assert (a + b)[0] == a[0] && (a + b)[1..] == a[1..] + b;
      ContextRowsAppend(a[1..], b);
    }
  }

  /** A flush puts the buffered deletions on the left, in order. */
  lemma {:induction false} PairLeft(dels: seq<Change>, adds: seq<Change>)
    ensures LeftSlots(Pair(dels, adds)) == Sides(dels)
    decreases |dels| + |adds|
  {
    if dels != [] || adds != [] {
      var d' := if dels == [] then [] else dels[1..];
      var a' := if adds == [] then [] else adds[1..];
      PairLeft(d', a');
      var p := Pair(dels, adds);
      assert p == [PairRow(dels, adds, 0)] + Pair(d', a');
      assert p[1..] == Pair(d', a');
    }
  }

  /** A flush puts the buffered additions on the right, in order. */
  lemma {:induction false} PairRight(dels: seq<Change>, adds: seq<Change>)
    ensures RightSlots(Pair(dels, adds)) == Sides(adds)
    decreases |dels| + |adds|
  {
    if dels != [] || adds != [] {
      var d' := if dels == [] then [] else dels[1..];
      var a' := if adds == [] then [] else adds[1..];
      PairRight(d', a');
      var p := Pair(dels, adds);
      assert p == [PairRow(dels, adds, 0)] + Pair(d', a');
      assert p[1..] == Pair(d', a');
    }
  }

  /** A flush makes change rows only, each with a slot. */
  lemma {:induction false} PairChangeRows(dels: seq<Change>, adds: seq<Change>)
    ensures ContextRows(Pair(dels, adds)) == []
    ensures AllWellFormed(Pair(dels, adds))
    decreases |dels| + |adds|
  {
    if dels != [] || adds != [] {
      var d' := if dels == [] then [] else dels[1..];
      var a' := if adds == [] then [] else adds[1..];
      PairChangeRows(d', a');
      var p := Pair(dels, adds);
      assert p == [PairRow(dels, adds, 0)] + Pair(d', a');
      assert p[1..] == Pair(d', a');
      assert WellFormedRow(p[0]);
    }
  }

  lemma {:induction false} AllWellFormedAppend(a: seq<AlignedRow>, b: seq<AlignedRow>)
    requires AllWellFormed(a) && AllWellFormed(b)
    ensures AllWellFormed(a + b)
  {
    forall k | 0 <= k < |a + b| ensures WellFormedRow((a + b)[k]) {
      if k < |a| { assert (a + b)[k] == a[k]; } else { assert (a + b)[k] == b[k - |a|]; }
    }
  }

  /** The single pass sends the pending and remaining deletions to the left slots, in order. */
  lemma {:induction false} AlignFromLeft(cs: seq<Change>, dels: seq<Change>, adds: seq<Change>)
    ensures LeftSlots(AlignFrom(cs, dels, adds)) == Sides(dels) + DelSides(cs)
    decreases |cs|
  {
    if cs == [] {
      PairLeft(dels, adds);
    } else {
      if cs[0].Normal? {
        AlignFromLeft(cs[1..], [], []);
        PairLeft(dels, adds);
        LeftNormalStep(cs, dels, adds);
      } else if cs[0].Del? && adds == [] {
        AlignFromLeft(cs[1..], dels + [cs[0]], []);
        LeftDelStep(cs, dels, adds);
      } else if cs[0].Del? {
        AlignFromLeft(cs[1..], [cs[0]], []);
        PairLeft(dels, adds);
        LeftFlushStep(cs, dels, adds);
      } else {
        AlignFromLeft(cs[1..], dels, adds + [cs[0]]);
      }
    }
  }

  lemma LeftNormalStep(cs: seq<Change>, dels: seq<Change>, adds: seq<Change>)
    requires cs != [] && cs[0].Normal?
    requires LeftSlots(Pair(dels, adds)) == Sides(dels)
    requires LeftSlots(AlignFrom(cs[1..], [], [])) == DelSides(cs[1..])
    ensures LeftSlots(AlignFrom(cs, dels, adds)) == Sides(dels) + DelSides(cs)
  {
    AlignFromNormal(cs, dels, adds);
    ContextRowSlots(cs[0]);
    DelSidesSkip(cs);
    LeftOfSplit(AlignFrom(cs, dels, adds), Pair(dels, adds), [ContextRowOf(cs[0])], AlignFrom(cs[1..], [], []),
      Sides(dels), DelSides(cs[1..]));
  }

  lemma LeftOfSplit(x: seq<AlignedRow>, p: seq<AlignedRow>, c: seq<AlignedRow>, r: seq<AlignedRow>,
                     a: seq<AlignedSide>, b: seq<AlignedSide>)
    requires x == p + c + r && LeftSlots(p) == a && LeftSlots(c) == [] && LeftSlots(r) == b
    ensures LeftSlots(x) == a + b
  {
    LeftSlotsAppend(p + c, r);
    LeftSlotsAppend(p, c);
    assert a + [] == a;
  }




  lemma LeftDelStep(cs: seq<Change>, dels: seq<Change>, adds: seq<Change>)
    requires cs != [] && cs[0].Del? && adds == []
    requires LeftSlots(AlignFrom(cs[1..], dels + [cs[0]], [])) == Sides(dels + [cs[0]]) + DelSides(cs[1..])
    ensures LeftSlots(AlignFrom(cs, dels, adds)) == Sides(dels) + DelSides(cs)
  {
    calc {
      LeftSlots(AlignFrom(cs, dels, adds));
      { AlignFromBuffer(cs, dels); }
      LeftSlots(AlignFrom(cs[1..], dels + [cs[0]], []));
      Sides(dels + [cs[0]]) + DelSides(cs[1..]);
      { SidesAppend(dels, [cs[0]]); SidesOne(cs[0]); }
      Sides(dels) + ([SideOf(cs[0])] + DelSides(cs[1..]));
      { DelSidesStep(cs); }
      Sides(dels) + DelSides(cs);
    }
  }


  lemma LeftFlushStep(cs: seq<Change>, dels: seq<Change>, adds: seq<Change>)
    requires cs != [] && cs[0].Del? && adds != []
    requires LeftSlots(Pair(dels, adds)) == Sides(dels)
    requires LeftSlots(AlignFrom(cs[1..], [cs[0]], [])) == Sides([cs[0]]) + DelSides(cs[1..])
    ensures LeftSlots(AlignFrom(cs, dels, adds)) == Sides(dels) + DelSides(cs)
  {
    var P, R := Pair(dels, adds), AlignFrom(cs[1..], [cs[0]], []);
    calc {
      LeftSlots(AlignFrom(cs, dels, adds));
      { AlignFromFlush(cs, dels, adds); }
      LeftSlots(P + R);
      { LeftSlotsAppend(P, R); }
      LeftSlots(P) + LeftSlots(R);
      { SidesOne(cs[0]); }
      Sides(dels) + ([SideOf(cs[0])] + DelSides(cs[1..]));
      { DelSidesStep(cs); }
      Sides(dels) + DelSides(cs);
    }
  }


  /** The single pass sends the pending and remaining additions to the right slots, in order. */
  lemma {:induction false} AlignFromRight(cs: seq<Change>, dels: seq<Change>, adds: seq<Change>)
    ensures RightSlots(AlignFrom(cs, dels, adds)) == Sides(adds) + AddSides(cs)
    decreases |cs|
  {
    if cs == [] {
      PairRight(dels, adds);
    } else {
      if cs[0].Normal? {
        AlignFromRight(cs[1..], [], []);
        PairRight(dels, adds);
        RightNormalStep(cs, dels, adds);
      } else if cs[0].Del? && adds == [] {
        AlignFromRight(cs[1..], dels + [cs[0]], []);
      } else if cs[0].Del? {
        AlignFromRight(cs[1..], [cs[0]], []);
        PairRight(dels, adds);
        RightFlushStep(cs, dels, adds);
      } else {
        AlignFromRight(cs[1..], dels, adds + [cs[0]]);
        RightAddStep(cs, dels, adds);
      }
    }
  }

  lemma RightNormalStep(cs: seq<Change>, dels: seq<Change>, adds: seq<Change>)
    requires cs != [] && cs[0].Normal?
    requires RightSlots(Pair(dels, adds)) == Sides(adds)
    requires RightSlots(AlignFrom(cs[1..], [], [])) == AddSides(cs[1..])
    ensures RightSlots(AlignFrom(cs, dels, adds)) == Sides(adds) + AddSides(cs)
  {
    AlignFromNormal(cs, dels, adds);
    ContextRowSlots(cs[0]);
    AddSidesSkip(cs);
    RightOfSplit(AlignFrom(cs, dels, adds), Pair(dels, adds), [ContextRowOf(cs[0])], AlignFrom(cs[1..], [], []),
      Sides(adds), AddSides(cs[1..]));
  }

  lemma ContextRowSlots(c: Change)
    requires c.Normal?
    ensures LeftSlots([ContextRowOf(c)]) == [] && RightSlots([ContextRowOf(c)]) == []
    ensures ContextRows([ContextRowOf(c)]) == [ContextRowOf(c)]
  {
    assert [ContextRowOf(c)][1..] == [];
  }

  lemma RightOfSplit(x: seq<AlignedRow>, p: seq<AlignedRow>, c: seq<AlignedRow>, r: seq<AlignedRow>,
                     a: seq<AlignedSide>, b: seq<AlignedSide>)
    requires x == p + c + r && RightSlots(p) == a && RightSlots(c) == [] && RightSlots(r) == b
    ensures RightSlots(x) == a + b
  {
    RightSlotsAppend(p + c, r);
    RightSlotsAppend(p, c);
    assert a + [] == a;
  }




  lemma RightFlushStep(cs: seq<Change>, dels: seq<Change>, adds: seq<Change>)
    requires cs != [] && cs[0].Del? && adds != []
    requires RightSlots(Pair(dels, adds)) == Sides(adds)
    requires RightSlots(AlignFrom(cs[1..], [cs[0]], [])) == AddSides(cs[1..])
    ensures RightSlots(AlignFrom(cs, dels, adds)) == Sides(adds) + AddSides(cs)
  {
    AlignFromFlush(cs, dels, adds);
    AddSidesSkip(cs);
    RightSlotsAppend(Pair(dels, adds), AlignFrom(cs[1..], [cs[0]], []));
  }

  lemma DelSidesSkip(cs: seq<Change>)
    requires cs != [] && !cs[0].Del?
    ensures DelSides(cs) == DelSides(cs[1..])
  {
  }

  lemma AddSidesSkip(cs: seq<Change>)
    requires cs != [] && !cs[0].Add?
    ensures AddSides(cs) == AddSides(cs[1..])
  {
  }




  lemma RightAddStep(cs: seq<Change>, dels: seq<Change>, adds: seq<Change>)
    requires cs != [] && cs[0].Add?
    requires RightSlots(AlignFrom(cs[1..], dels, adds + [cs[0]])) == Sides(adds + [cs[0]]) + AddSides(cs[1..])
    ensures RightSlots(AlignFrom(cs, dels, adds)) == Sides(adds) + AddSides(cs)
  {
    calc {
      RightSlots(AlignFrom(cs, dels, adds));
      { AlignFromAdd(cs, dels, adds); }
      RightSlots(AlignFrom(cs[1..], dels, adds + [cs[0]]));
      Sides(adds + [cs[0]]) + AddSides(cs[1..]);
      { SidesAppend(adds, [cs[0]]); SidesOne(cs[0]); }
      Sides(adds) + ([SideOf(cs[0])] + AddSides(cs[1..]));
      { AddSidesStep(cs); }
      Sides(adds) + AddSides(cs);
    }
  }


  /** The single pass makes one context row per context line, in order, and no other. */
  lemma {:induction false} AlignFromContext(cs: seq<Change>, dels: seq<Change>, adds: seq<Change>)
    ensures ContextRows(AlignFrom(cs, dels, adds)) == NormalRows(cs)
    decreases |cs|
  {
    if cs == [] {
      PairChangeRows(dels, adds);
    } else {
      if cs[0].Normal? {
        AlignFromContext(cs[1..], [], []);
        PairChangeRows(dels, adds);
        ContextNormalStep(cs, dels, adds);
      } else if cs[0].Del? && adds == [] {
        AlignFromContext(cs[1..], dels + [cs[0]], []);
      } else if cs[0].Del? {
        AlignFromContext(cs[1..], [cs[0]], []);
        PairChangeRows(dels, adds);
        ContextRowsAppend(Pair(dels, adds), AlignFrom(cs[1..], [cs[0]], []));
      } else {
        AlignFromContext(cs[1..], dels, adds + [cs[0]]);
      }
    }
  }

  lemma ContextNormalStep(cs: seq<Change>, dels: seq<Change>, adds: seq<Change>)
    requires cs != [] && cs[0].Normal?
    requires ContextRows(Pair(dels, adds)) == []
    requires ContextRows(AlignFrom(cs[1..], [], [])) == NormalRows(cs[1..])
    ensures ContextRows(AlignFrom(cs, dels, adds)) == NormalRows(cs)
  {
    AlignFromNormal(cs, dels, adds);
    ContextRowSlots(cs[0]);
    NormalRowsStep(cs);
    ContextOfSplit(AlignFrom(cs, dels, adds), Pair(dels, adds), [ContextRowOf(cs[0])], AlignFrom(cs[1..], [], []),
      NormalRows(cs[1..]));
  }

  lemma ContextOfSplit(x: seq<AlignedRow>, p: seq<AlignedRow>, c: seq<AlignedRow>, r: seq<AlignedRow>,
                       b: seq<AlignedRow>)
    requires x == p + c + r && ContextRows(p) == [] && ContextRows(c) == c && ContextRows(r) == b
    ensures ContextRows(x) == c + b
  {
    ContextRowsAppend(p + c, r);
    ContextRowsAppend(p, c);
    assert [] + c == c;
  }




  /** The single pass makes no malformed row. */
  lemma {:induction false} AlignFromWellFormed(cs: seq<Change>, dels: seq<Change>, adds: seq<Change>)
    ensures AllWellFormed(AlignFrom(cs, dels, adds))
    decreases |cs|
  {
    if cs == [] {
      PairChangeRows(dels, adds);
    } else {
      if cs[0].Normal? {
        AlignFromWellFormed(cs[1..], [], []);
        PairChangeRows(dels, adds);
        var ctx := [ContextRowOf(cs[0])];
        assert AllWellFormed(ctx);
        AllWellFormedAppend(Pair(dels, adds), ctx);
        AllWellFormedAppend(Pair(dels, adds) + ctx, AlignFrom(cs[1..], [], []));
      } else if cs[0].Del? && adds == [] {
        AlignFromWellFormed(cs[1..], dels + [cs[0]], []);
      } else if cs[0].Del? {
        AlignFromWellFormed(cs[1..], [cs[0]], []);
        PairChangeRows(dels, adds);
        AllWellFormedAppend(Pair(dels, adds), AlignFrom(cs[1..], [cs[0]], []));
      } else {
        AlignFromWellFormed(cs[1..], dels, adds + [cs[0]]);
      }
    }
  }

  /** The per-kind projections of a line sequence, unfolded once. */
  lemma DelSidesStep(cs: seq<Change>)
    requires cs != []
    ensures DelSides(cs) == (if cs[0].Del? then [SideOf(cs[0])] else []) + DelSides(cs[1..])
  {
  }

  lemma AddSidesStep(cs: seq<Change>)
    requires cs != []
    ensures AddSides(cs) == (if cs[0].Add? then [SideOf(cs[0])] else []) + AddSides(cs[1..])
  {
  }

  lemma NormalRowsStep(cs: seq<Change>)
    requires cs != []
    ensures NormalRows(cs) == (if cs[0].Normal? then [ContextRowOf(cs[0])] else []) + NormalRows(cs[1..])
  {
  }

  lemma SidesOne(c: Change)
    ensures Sides([c]) == [SideOf(c)]
  {
    assert [c][1..] == [];
  }


  lemma {:induction false} SidesAppend(a: seq<Change>, b: seq<Change>)
    ensures Sides(a + b) == Sides(a) + Sides(b)
  {
    if a == [] {
      assert a + b == b;
    } else {
      assert (a + b)[0] == a[0] && (a + b)[1..] == a[1..] + b;
      SidesAppend(a[1..], b);
    }
  }

  lemma {:induction false} DelSidesAppend(a: seq<Change>, b: seq<Change>)
    ensures DelSides(a + b) == DelSides(a) + DelSides(b)
  {
    if a == [] {
      assert a + b == b;
    } else {
      assert (a + b)[0] == a[0] && (a + b)[1..] == a[1..] + b;
      DelSidesAppend(a[1..], b);
    }
  }

  lemma {:induction false} AddSidesAppend(a: seq<Change>, b: seq<Change>)
    ensures AddSides(a + b) == AddSides(a) + AddSides(b)
  {
    if a == [] {
      assert a + b == b;
    } else {
      assert (a + b)[0] == a[0] && (a + b)[1..] == a[1..] + b;
      AddSidesAppend(a[1..], b);
    }
  }

  /**
   * Nothing is lost and order is kept: the present left slots of the change
   * rows are the deleted lines in input order, the present right slots the
   * added lines, and the context rows are the context lines, one each.
   * No row has both slots missing, and a context row shows one content twice.
   */
  lemma AlignKeepsEveryLine(cs: seq<Change>)
    ensures LeftSlots(Align(cs)) == DelSides(cs)
    ensures RightSlots(Align(cs)) == AddSides(cs)
    ensures ContextRows(Align(cs)) == NormalRows(cs)
    ensures forall k :: 0 <= k < |Align(cs)| ==> WellFormedRow(Align(cs)[k])
  {
    AlignFromLeft(cs, [], []);
    AlignFromRight(cs, [], []);
    AlignFromContext(cs, [], []);
    AlignFromWellFormed(cs, [], []);
  }

  lemma {:induction false} RowCount(rows: seq<AlignedRow>)
    requires AllWellFormed(rows)
    ensures |rows| + FullRows(rows) == |ContextRows(rows)| + |LeftSlots(rows)| + |RightSlots(rows)|
  {
    if rows != [] {
      assert AllWellFormed(rows[1..]) by {
        forall k | 0 <= k < |rows[1..]| ensures WellFormedRow(rows[1..][k]) {
          assert rows[1..][k] == rows[k + 1];
        }
      }
      assert WellFormedRow(rows[0]);
      RowCount(rows[1..]);
    }
  }

  lemma {:induction false} LineCount(cs: seq<Change>)
    ensures |cs| == |NormalRows(cs)| + |DelSides(cs)| + |AddSides(cs)|
  {
    if cs != [] {
      LineCount(cs[1..]);
    }
  }

  /**
   * Row count: every line lands in one row and only a row that pairs a
   * deletion with an addition holds two, so the rows number the lines less
   * the paired rows; at least one row per context line plus the longer of
   * the deletion and addition totals, and never more rows than lines.
   */
  lemma AlignLength(cs: seq<Change>)
    ensures |Align(cs)| + FullRows(Align(cs)) == |cs|
    ensures |Align(cs)| <= |cs|
    ensures |NormalRows(cs)| + Max(|DelSides(cs)|, |AddSides(cs)|) <= |Align(cs)|
  {
    AlignKeepsEveryLine(cs);
    RowCount(Align(cs));
    LineCount(cs);
    FullRowsBound(Align(cs));
  }

  lemma {:induction false} FullRowsBound(rows: seq<AlignedRow>)
    ensures FullRows(rows) <= |LeftSlots(rows)| && FullRows(rows) <= |RightSlots(rows)|
  {
    if rows != [] {
      FullRowsBound(rows[1..]);
    }
  }

  lemma {:induction false} AlignFromAdds(adds0: seq<Change>, rest: seq<Change>, dels: seq<Change>, adds: seq<Change>)
    requires AllAdds(adds0)
    ensures AlignFrom(adds0 + rest, dels, adds) == AlignFrom(rest, dels, adds + adds0)
    decreases |adds0|
  {
    if adds0 == [] {
      assert adds0 + rest == rest && adds + adds0 == adds;
    } else {
      var c := adds0[0];
      assert (adds0 + rest)[0] == c && (adds0 + rest)[1..] == adds0[1..] + rest;
      AlignFromAdds(adds0[1..], rest, dels, adds + [c]);
      assert adds + [c] + adds0[1..] == adds + adds0;
    }
  }

  lemma {:induction false} AlignFromDels(dels0: seq<Change>, dels: seq<Change>)
    requires AllDels(dels0)
    ensures AlignFrom(dels0, dels, []) == Pair(dels + dels0, [])
    decreases |dels0|
  {
    if dels0 == [] {
      assert dels + dels0 == dels;
    } else {
      var c := dels0[0];
      AlignFromDels(dels0[1..], dels + [c]);
      assert dels + [c] + dels0[1..] == dels + dels0;
    }
  }

  /**
   * One contiguous block of deletions followed by additions is one flush:
   * max(d, a) rows, the i-th deletion beside the i-th addition.
   */
  lemma BlockIsOneFlush(dels: seq<Change>, adds: seq<Change>)
    requires AllDels(dels) && AllAdds(adds)
    ensures Align(dels + adds) == Pair(dels, adds)
  {
    AlignFromDelsThenAdds(dels, adds, []);
    assert [] + dels == dels;
  }

  lemma {:induction false} AlignFromDelsThenAdds(dels0: seq<Change>, adds: seq<Change>, dels: seq<Change>)
    requires AllDels(dels0) && AllAdds(adds)
    ensures AlignFrom(dels0 + adds, dels, []) == Pair(dels + dels0, adds)
    decreases |dels0|
  {
    if dels0 == [] {
      assert dels0 + adds == adds + [] && dels + dels0 == dels;
      AlignFromAdds(adds, [], dels, []);
      assert [] + adds == adds;
    } else {
      var c := dels0[0];
      assert (dels0 + adds)[0] == c && (dels0 + adds)[1..] == dels0[1..] + adds;
      AlignFromDelsThenAdds(dels0[1..], adds, dels + [c]);
      assert dels + [c] + dels0[1..] == dels + dels0;
    }
  }

  lemma {:induction false} AlignFromDelsPrefix(dels0: seq<Change>, rest: seq<Change>, dels: seq<Change>)
    requires AllDels(dels0)
    ensures AlignFrom(dels0 + rest, dels, []) == AlignFrom(rest, dels + dels0, [])
    decreases |dels0|
  {
    if dels0 == [] {
      assert dels0 + rest == rest && dels + dels0 == dels;
    } else {
      var c := dels0[0];
      assert (dels0 + rest)[0] == c && (dels0 + rest)[1..] == dels0[1..] + rest;
      AlignFromDelsPrefix(dels0[1..], rest, dels + [c]);
      assert dels + [c] + dels0[1..] == dels + dels0;
    }
  }

  /**
   * A context line closes the block before it: the block's deletions and
   * additions are paired up, the context line becomes one row of its own,
   * and the lines after it are aligned afresh.
   */
  lemma ContextClosesBlock(dels: seq<Change>, adds: seq<Change>, c: Change, rest: seq<Change>)
    requires AllDels(dels) && AllAdds(adds) && c.Normal?
    ensures Align(dels + adds + [c] + rest) == Pair(dels, adds) + [ContextRowOf(c)] + Align(rest)
  {
    var tail := [c] + rest;
    assert dels + adds + [c] + rest == dels + (adds + tail);
    AlignFromDelsPrefix(dels, adds + tail, []);
    assert [] + dels == dels;
    AlignFromAdds(adds, tail, dels, []);
    assert [] + adds == adds;
    assert tail[0] == c && tail[1..] == rest;
  }

  /**
   * A deletion after additions starts a new block: additions followed by
   * deletions are never paired, e.g. [add x, del y] gives (-, x) then (y, -).
   */
  lemma AddsThenDelsNotPaired(adds: seq<Change>, dels: seq<Change>)
    requires AllAdds(adds) && AllDels(dels)
    ensures Align(adds + dels) == Pair([], adds) + Pair(dels, [])
  {
    AlignFromAdds(adds, dels, [], []);
    assert [] + adds == adds;
    if dels == [] {
      assert Pair(dels, []) == [];
      assert Pair([], adds) + Pair(dels, []) == Pair([], adds);
    } else if adds == [] {
      AlignFromDels(dels, []);
      assert Pair([], adds) == [];
      assert [] + dels == dels;
    } else {
      AlignFromDels(dels[1..], [dels[0]]);
      assert [dels[0]] + dels[1..] == dels;
    }
  }

  /** An empty hunk aligns to no rows. */
  lemma EmptyHunk()
    ensures Align([]) == []
  {
  }
}
