/**
 * Keyboard navigation over the flat row list: the scroll bound, the
 * searches for file box tops, and the per-key transitions of the
 * navigation state (scroll offset, collapsed files, saved scroll
 * positions and the help overlay).
 */
module Navigation {
  import opened Types

  // ---------------------------------------------------------------------
  // Scroll bound
  // ---------------------------------------------------------------------

  function Max(a: int, b: int): int { if a >= b then a else b }
  function Min(a: int, b: int): int { if a <= b then a else b }

  /** The largest scroll offset: the last row may sit at the bottom of the view. */
  function MaxOffset(rows: seq<FlatRow>, height: int): (r: nat)
    ensures r >= |rows| - height
    ensures r == 0 || r == |rows| - height
  {
    Max(0, |rows| - height)
  }

  /** Clamp `n` into `[0, max]`. */
  function Clamp(n: int, max: nat): (r: nat)
    ensures r <= max
    ensures 0 <= n <= max ==> r == n
    ensures n < 0 ==> r == 0
    ensures n > max ==> r == max
  {
    Max(0, Min(n, max))
  }

  /** `Math.floor(height / 2)`; Dafny's division by a positive divisor rounds down. */
  function HalfPage(height: int): (r: int)
    ensures 2 * r <= height < 2 * r + 2
  {
    height / 2
  }

  /**
   * `computeMaxOffset`, known only from tests/view-mode.test.ts (the hook
   * itself bounds the offset by `MaxOffset`): the bound is raised, when
   * needed, so that the last box top can be scrolled to the top of the view.
   */
  function ComputeMaxOffset(rows: seq<FlatRow>, height: int): (r: nat)
    ensures r >= MaxOffset(rows, height)
    ensures forall t :: 0 <= t < |rows| && rows[t].FileBoxTop? ==> t <= r
    ensures r == MaxOffset(rows, height) || (r < |rows| && rows[r].FileBoxTop?)
  {
    match TopAtOrBefore(rows, |rows| - 1)
    case Some(t) => Max(MaxOffset(rows, height), t)
    case None => MaxOffset(rows, height)
  }

  // ---------------------------------------------------------------------
  // Searches over the rows
  // ---------------------------------------------------------------------

  /** The nearest box-top row at or before row `i`; rows past the end are skipped. */
  function TopAtOrBefore(rows: seq<FlatRow>, i: int): (r: Option<nat>)
    ensures r.Some? ==>
      r.value <= i && r.value < |rows| && rows[r.value].FileBoxTop? &&
      forall u :: r.value < u <= i && u < |rows| ==> !rows[u].FileBoxTop?
    ensures r.None? ==> forall u :: 0 <= u <= i && u < |rows| ==> !rows[u].FileBoxTop?
    decreases i + 1
  {
    if i < 0 then None
    else if i < |rows| && rows[i].FileBoxTop? then Some(i)
    else TopAtOrBefore(rows, i - 1)
  }

  /** The first box-top row at or after row `i`. */
  function TopFrom(rows: seq<FlatRow>, i: nat): (r: Option<nat>)
    ensures r.Some? ==>
      i <= r.value < |rows| && rows[r.value].FileBoxTop? &&
      forall u :: i <= u < r.value ==> !rows[u].FileBoxTop?
    ensures r.None? ==> forall u :: i <= u < |rows| ==> !rows[u].FileBoxTop?
    decreases |rows| - i
  {
    if i >= |rows| then None
    else if rows[i].FileBoxTop? then Some(i)
    else TopFrom(rows, i + 1)
  }

  /**
   * `currentFileIndex`: the file of the nearest box top at or before the
   * offset, else of the first one after it, else -1; -1 exactly when the
   * rows hold no box top.
   */
  function CurrentFile(rows: seq<FlatRow>, offset: nat): (r: int)
    ensures r == -1 <==> forall u :: 0 <= u < |rows| ==> !rows[u].FileBoxTop?
    ensures r != -1 ==> exists u :: 0 <= u < |rows| && rows[u].FileBoxTop? && rows[u].fileIndex == r
  {
    match TopAtOrBefore(rows, offset)
    case Some(t) => rows[t].fileIndex
    case None =>
      match TopFrom(rows, offset + 1)
      case Some(t) => rows[t].fileIndex
      case None => -1
  }

  /** The file `currentFileIndex` reports is that of the nearest box top, looking back first. */
  lemma CurrentFileIsNearest(rows: seq<FlatRow>, offset: nat, t: nat)
    requires t < |rows| && rows[t].FileBoxTop?
    ensures t <= offset && (forall u :: t < u <= offset && u < |rows| ==> !rows[u].FileBoxTop?) ==>
      CurrentFile(rows, offset) == rows[t].fileIndex
    ensures offset < t && (forall u :: 0 <= u < t ==> !rows[u].FileBoxTop?) ==>
      CurrentFile(rows, offset) == rows[t].fileIndex
  {
    var back := TopAtOrBefore(rows, offset);
    if t <= offset && (forall u :: t < u <= offset && u < |rows| ==> !rows[u].FileBoxTop?) {
      assert back.Some?;
      assert back.value == t;
    }
    if offset < t && (forall u :: 0 <= u < t ==> !rows[u].FileBoxTop?) {
      assert back.None?;
      var fwd := TopFrom(rows, offset + 1);
      assert fwd.Some?;
      assert fwd.value == t;
    }
  }

  /** The first box-top row of file `fileIndex` at or after row `i`. */
  function TopOfFrom(rows: seq<FlatRow>, fileIndex: int, i: nat): (r: Option<nat>)
    ensures r.Some? ==>
      i <= r.value < |rows| && rows[r.value].FileBoxTop? && rows[r.value].fileIndex == fileIndex &&
      forall u :: i <= u < r.value ==> !(rows[u].FileBoxTop? && rows[u].fileIndex == fileIndex)
    ensures r.None? ==>
      forall u :: i <= u < |rows| ==> !(rows[u].FileBoxTop? && rows[u].fileIndex == fileIndex)
    decreases |rows| - i
  {
    if i >= |rows| then None
    else if rows[i].FileBoxTop? && rows[i].fileIndex == fileIndex then Some(i)
    else TopOfFrom(rows, fileIndex, i + 1)
  }

  /** `findFileRow`: the first box-top row of the file, or 0 when there is none. */
  function FindRow(rows: seq<FlatRow>, fileIndex: int): (r: nat)
    ensures (exists u :: 0 <= u < |rows| && rows[u].FileBoxTop? && rows[u].fileIndex == fileIndex) ==>
      r < |rows| && rows[r].FileBoxTop? && rows[r].fileIndex == fileIndex &&
      forall u :: 0 <= u < r ==> !(rows[u].FileBoxTop? && rows[u].fileIndex == fileIndex)
    ensures (forall u :: 0 <= u < |rows| ==> !(rows[u].FileBoxTop? && rows[u].fileIndex == fileIndex)) ==>
      r == 0
  {
    match TopOfFrom(rows, fileIndex, 0)
    case Some(t) => t
    case None => 0
  }

  /** The file indices of the box tops, in row order. */
  function Order(rows: seq<FlatRow>): seq<nat>
  {
    if rows == [] then []
    else (if rows[0].FileBoxTop? then [rows[0].fileIndex] else []) + Order(rows[1..])
  }

  /** The position of the first occurrence of `x` in `s`. */
  function FirstPos(s: seq<nat>, x: int): (r: nat)
    requires x in s
    ensures r < |s| && s[r] == x
    ensures forall u :: 0 <= u < r ==> s[u] != x
  {
    if s[0] == x then 0 else 1 + FirstPos(s[1..], x)
  }

  /** The file after the first occurrence of `after` in the order, or -1. */
  function NextIn(order: seq<nat>, after: int): int
  {
    if after !in order then -1
    else
      var j := FirstPos(order, after);
      if j + 1 < |order| then order[j + 1] else -1
  }

  /** The file before the first occurrence of `before` in the order, or -1. */
  function PrevIn(order: seq<nat>, before: int): int
  {
    if before !in order then -1
    else
      var j := FirstPos(order, before);
      if j > 0 then order[j - 1] else -1
  }

  /** The scan `nextFileIndex` makes from row `i`, with its `found` flag. */
  function NextScan(rows: seq<FlatRow>, after: int, found: bool, i: nat): int
    decreases |rows| - i
  {
    if i >= |rows| then -1
    else if rows[i].FileBoxTop? then
      (if found then rows[i].fileIndex else NextScan(rows, after, rows[i].fileIndex == after, i + 1))
    else NextScan(rows, after, found, i + 1)
  }

  /** The scan `prevFileIndex` makes from row `i`, with its `prev` variable. */
  function PrevScan(rows: seq<FlatRow>, before: int, prev: int, i: nat): int
    decreases |rows| - i
  {
    if i >= |rows| then -1
    else if rows[i].FileBoxTop? then
      (if rows[i].fileIndex == before then prev else PrevScan(rows, before, rows[i].fileIndex, i + 1))
    else PrevScan(rows, before, prev, i + 1)
  }

  lemma OrderStep(rows: seq<FlatRow>, i: nat)
    requires i < |rows|
    ensures rows[i].FileBoxTop? ==> Order(rows[i..]) == [rows[i].fileIndex] + Order(rows[i + 1..])
    ensures !rows[i].FileBoxTop? ==> Order(rows[i..]) == Order(rows[i + 1..])
  {
    assert rows[i..][0] == rows[i] && rows[i..][1..] == rows[i + 1..];
    if !rows[i].FileBoxTop? {
      assert [] + Order(rows[i + 1..]) == Order(rows[i + 1..]);
    }
  }

  lemma FirstPosCons(x: nat, s: seq<nat>, y: int)
    requires y in [x] + s && x != y
    ensures y in s && FirstPos([x] + s, y) == 1 + FirstPos(s, y)
  {
    assert ([x] + s)[1..] == s;
  }

  /** The first of `o`, or -1 when there is none. */
  function FirstOr(o: seq<nat>): int
  {
    if o == [] then -1 else o[0]
  }

  lemma NextInCons(x: nat, rest: seq<nat>, after: int)
    ensures x == after ==> NextIn([x] + rest, after) == FirstOr(rest)
    ensures x != after ==> NextIn([x] + rest, after) == NextIn(rest, after)
  {
    var o := [x] + rest;
    assert o[0] == x;
    if x == after {
      assert FirstPos(o, after) == 0;
      assert |rest| > 0 ==> o[1] == rest[0];
    } else if after in o {
      FirstPosCons(x, rest, after);
      var j := FirstPos(rest, after);
      assert j + 1 < |rest| ==> o[j + 2] == rest[j + 1];
    } else {
      assert after !in rest;
    }
  }

  /** Once `after` has been seen, the scan returns the next box top's file. */
  lemma {:induction false} NextScanFound(rows: seq<FlatRow>, after: int, i: nat)
    requires i <= |rows|
    ensures NextScan(rows, after, true, i) == FirstOr(Order(rows[i..]))
    decreases |rows| - i
  {
    if i == |rows| {
      assert rows[i..] == [];
    } else {
      OrderStep(rows, i);
      if !rows[i].FileBoxTop? {
        NextScanFound(rows, after, i + 1);
      }
    }
  }

  /** The scan of `nextFileIndex` finds the file after `after` in box-top order. */
  lemma {:induction false} NextScanIsNextIn(rows: seq<FlatRow>, after: int, i: nat)
    requires i <= |rows|
    ensures NextScan(rows, after, false, i) == NextIn(Order(rows[i..]), after)
    decreases |rows| - i
  {
    if i == |rows| {
      assert rows[i..] == [];
    } else {
      OrderStep(rows, i);
      if rows[i].FileBoxTop? {
        NextInCons(rows[i].fileIndex, Order(rows[i + 1..]), after);
        if rows[i].fileIndex == after {
          NextScanFound(rows, after, i + 1);
        } else {
          NextScanIsNextIn(rows, after, i + 1);
        }
      } else {
        NextScanIsNextIn(rows, after, i + 1);
      }
    }
  }

  /**
   * What `prevFileIndex` returns once `prev` has been seen and the box tops
   * still to come are `o`: the file just ahead of the first `before`
   * (`prev` when that is the first of `o`), or -1 when `before` is absent.
   */
  function PrevOf(o: seq<nat>, before: int, prev: int): int
  {
    if before !in o then -1
    else
      var j := FirstPos(o, before);
      if j == 0 then prev else o[j - 1]
  }

  lemma PrevOfCons(x: nat, rest: seq<nat>, before: int, prev: int)
    requires x != before
    ensures PrevOf([x] + rest, before, prev) == PrevOf(rest, before, x)
  {
    var o := [x] + rest;
    assert o[0] == x;
    if before in o {
      FirstPosCons(x, rest, before);
      var j := FirstPos(rest, before);
      assert o[j] == if j == 0 then x else rest[j - 1];
    } else {
      assert before !in rest;
    }
  }

  /** The scan of `prevFileIndex` from row `i` is `PrevOf` over the box tops from row `i`. */
  lemma {:induction false} PrevScanIsPrevOf(rows: seq<FlatRow>, before: int, prev: int, i: nat)
    requires i <= |rows|
    ensures PrevScan(rows, before, prev, i) == PrevOf(Order(rows[i..]), before, prev)
    decreases |rows| - i
  {
    if i == |rows| {
      assert rows[i..] == [];
    } else {
      OrderStep(rows, i);
      var rest := Order(rows[i + 1..]);
      if rows[i].FileBoxTop? {
        var x := rows[i].fileIndex;
        if x == before {
          assert ([x] + rest)[0] == x;
        } else {
          PrevScanIsPrevOf(rows, before, x, i + 1);
          PrevOfCons(x, rest, before, prev);
        }
      } else {
        PrevScanIsPrevOf(rows, before, prev, i + 1);
      }
    }
  }

  // ---------------------------------------------------------------------
  // Navigation state
  // ---------------------------------------------------------------------

  /** The special keys the input handler looks at; `enter` is ink's `key.return`. */
  datatype Key = Key(upArrow: bool, downArrow: bool, pageUp: bool, pageDown: bool, shift: bool, enter: bool)

  /** What a key asks of the application besides the navigation state. */
  datatype Effect = NoEffect | Quit | Reload | CloseFile(fileIndex: nat)

  /** The command a key stands for. */
  datatype Command =
    | HelpCmd | QuitCmd | ReloadCmd | DownCmd | UpCmd | HalfDownCmd | HalfUpCmd
    | TopCmd | BottomCmd | NextCmd | PrevCmd | CloseCmd | ToggleCmd | Unbound

  /** The dispatch table of the input handler, tested in the handler's own order. */
  function KeyCommand(input: string, key: Key): Command
  {
    if IsHelpKey(input) then HelpCmd
    else if input == "q" then QuitCmd
    else if input == "r" then ReloadCmd
    else if input == "j" || key.downArrow then DownCmd
    else if input == "k" || key.upArrow then UpCmd
    else if input == "d" || key.pageDown then HalfDownCmd
    else if input == "u" || key.pageUp then HalfUpCmd
    else if input == "g" && !key.shift then TopCmd
    else if input == "G" then BottomCmd
    else if input == "n" then NextCmd
    else if input == "p" then PrevCmd
    else if input == "c" then CloseCmd
    else if key.enter || input == "o" then ToggleCmd
    else Unbound
  }

  /** `input.toLowerCase() === "h"`. */
  predicate IsHelpKey(input: string)
  {
    input == "h" || input == "H"
  }

  /** The delay before the help overlay hides: longer on the first press. */
  function HelpDelay(shown: bool): (r: nat)
    ensures shown ==> r == 200
    ensures !shown ==> r == 600
  {
    if shown then 200 else 600
  }

  class Navigator {
    var rows: seq<FlatRow>
    var height: int
    var scrollOffset: nat
    var collapsed: set<nat>
    var savedScroll: map<nat, nat>
    var showHelp: bool
    /** The pending hide-help timer, by its delay in milliseconds. */
    var helpTimer: Option<nat>

    ghost predicate Valid()
      reads this
    {
      scrollOffset <= MaxOffset(rows, height) &&
      (showHelp <==> helpTimer.Some?)
    }

    constructor (rows: seq<FlatRow>, height: int)
      ensures Valid()
      ensures this.rows == rows && this.height == height
      ensures scrollOffset == 0 && collapsed == {} && savedScroll == map[]
      ensures !showHelp && helpTimer == None
    {
      this.rows := rows;
      this.height := height;
      scrollOffset := 0;
      collapsed := {};
      savedScroll := map[];
      showHelp := false;
      helpTimer := None;
    }

    /** `currentFileIndex`. */
    method CurrentFileIndex() returns (r: int)
      ensures r == CurrentFile(rows, scrollOffset)
    {
      var i: int := scrollOffset;
      while i >= 0
        invariant -1 <= i <= scrollOffset
        invariant TopAtOrBefore(rows, i) == TopAtOrBefore(rows, scrollOffset)
        decreases i + 1
      {
        if i < |rows| && rows[i].FileBoxTop? {
          return rows[i].fileIndex;
        }
        i := i - 1;
      }
      var j: nat := scrollOffset + 1;
      while j < |rows|
        invariant scrollOffset + 1 <= j
        invariant TopFrom(rows, j) == TopFrom(rows, scrollOffset + 1)
        decreases |rows| - j
      {
        if rows[j].FileBoxTop? {
          return rows[j].fileIndex;
        }
        j := j + 1;
      }
      return -1;
    }

    /** `findFileRow`. */
    method FindFileRow(fileIndex: int) returns (r: nat)
      ensures r == FindRow(rows, fileIndex)
    {
      var i: nat := 0;
      while i < |rows|
        invariant i <= |rows|
        invariant TopOfFrom(rows, fileIndex, i) == TopOfFrom(rows, fileIndex, 0)
      {
        if rows[i].FileBoxTop? && rows[i].fileIndex == fileIndex {
          return i;
        }
        i := i + 1;
      }
      return 0;
    }

    /** `nextFileIndex`: the file after `after` in box-top order, or -1. */
    method NextFileIndex(after: int) returns (r: int)
      ensures r == NextIn(Order(rows), after)
    {
      var found := false;
      var i: nat := 0;
      while i < |rows|
        invariant i <= |rows|
        invariant NextScan(rows, after, found, i) == NextScan(rows, after, false, 0)
      {
        var row := rows[i];
        if row.FileBoxTop? {
          if found {
            r := row.fileIndex;
            NextScanIsNextIn(rows, after, 0);
            assert rows[0..] == rows;
            return;
          }
          if row.fileIndex == after {
            found := true;
          }
        }
        i := i + 1;
      }
      NextScanIsNextIn(rows, after, 0);
      assert rows[0..] == rows;
      r := -1;
    }

    /** `prevFileIndex`: the file before `before` in box-top order, or -1. */
    method PrevFileIndex(before: int) returns (r: int)
      ensures r == PrevIn(Order(rows), before)
    {
      var prev: int := -1;
      var i: nat := 0;
      while i < |rows|
        invariant i <= |rows|
        invariant PrevScan(rows, before, prev, i) == PrevScan(rows, before, -1, 0)
      {
        var row := rows[i];
        if row.FileBoxTop? {
          if row.fileIndex == before {
            r := prev;
            PrevScanIsPrevOf(rows, before, -1, 0);
            assert rows[0..] == rows;
            return;
          }
          prev := row.fileIndex;
        }
        i := i + 1;
      }
      PrevScanIsPrevOf(rows, before, -1, 0);
      assert rows[0..] == rows;
      r := -1;
    }

    /** `j` / down arrow: one row down, clamped. */
    method ScrollDown()
      requires Valid()
      modifies this`scrollOffset
      ensures Valid()
      ensures scrollOffset == Clamp(old(scrollOffset) + 1, MaxOffset(rows, height))
    {
      scrollOffset := Clamp(scrollOffset + 1, MaxOffset(rows, height));
    }

    /** `k` / up arrow: one row up, clamped. */
    method ScrollUp()
      requires Valid()
      modifies this`scrollOffset
      ensures Valid()
      ensures scrollOffset == Clamp(old(scrollOffset) - 1, MaxOffset(rows, height))
    {
      scrollOffset := Clamp(scrollOffset - 1, MaxOffset(rows, height));
    }

    /** `d` / page down: half a page down, clamped. */
    method HalfPageDown()
      requires Valid()
      modifies this`scrollOffset
      ensures Valid()
      ensures scrollOffset == Clamp(old(scrollOffset) + HalfPage(height), MaxOffset(rows, height))
    {
      scrollOffset := Clamp(scrollOffset + HalfPage(height), MaxOffset(rows, height));
    }

    /** `u` / page up: half a page up, clamped. */
    method HalfPageUp()
      requires Valid()
      modifies this`scrollOffset
      ensures Valid()
      ensures scrollOffset == Clamp(old(scrollOffset) - HalfPage(height), MaxOffset(rows, height))
    {
      scrollOffset := Clamp(scrollOffset - HalfPage(height), MaxOffset(rows, height));
    }

    /** `g` without shift: the top of the list. */
    method JumpTop()
      requires Valid()
      modifies this`scrollOffset
      ensures Valid()
      ensures scrollOffset == 0
    {
      scrollOffset := 0;
    }

    /** `G`: the bottom of the list. */
    method JumpBottom()
      requires Valid()
      modifies this`scrollOffset
      ensures Valid()
      ensures scrollOffset == MaxOffset(rows, height)
    {
      scrollOffset := MaxOffset(rows, height);
    }

    /**
     * `n`: to the box top of the next file in row order, clamped; nothing
     * when there is no current file or no next one.
     */
    method NextFile()
      requires Valid()
      modifies this`scrollOffset
      ensures Valid()
      ensures var cur := CurrentFile(rows, old(scrollOffset));
        var next := NextIn(Order(rows), cur);
        scrollOffset ==
          if cur == -1 || next == -1 then old(scrollOffset)
          else Clamp(FindRow(rows, next), MaxOffset(rows, height))
    {
      var cur := CurrentFileIndex();
      if cur == -1 {
        return;
      }
      var next := NextFileIndex(cur);
      if next != -1 {
        var row := FindFileRow(next);
        scrollOffset := Clamp(row, MaxOffset(rows, height));
      }
    }

    /**
     * `p`: to the box top of the previous file in row order, clamped;
     * nothing when there is no current file or no previous one.
     */
    method PrevFile()
      requires Valid()
      modifies this`scrollOffset
      ensures Valid()
      ensures var cur := CurrentFile(rows, old(scrollOffset));
        var prev := PrevIn(Order(rows), cur);
        scrollOffset ==
          if cur == -1 || prev == -1 then old(scrollOffset)
          else Clamp(FindRow(rows, prev), MaxOffset(rows, height))
    {
      var cur := CurrentFileIndex();
      if cur == -1 {
        return;
      }
      var prev := PrevFileIndex(cur);
      if prev != -1 {
        var row := FindFileRow(prev);
        scrollOffset := Clamp(row, MaxOffset(rows, height));
      }
    }

    /** `c`: ask for the current file to be closed; the state is left alone. */
    method CloseCurrent() returns (effect: Effect)
      ensures var cur := CurrentFile(rows, scrollOffset);
        effect == if cur == -1 then NoEffect else CloseFile(cur)
    {
      var idx := CurrentFileIndex();
      if idx == -1 {
        return NoEffect;
      }
      return CloseFile(idx);
    }

    /**
     * The state Enter / `o` leaves, given the offset, the collapsed set and
     * the saved offsets before it: nothing changes without a current file;
     * collapsing adds the file, saves the offset for it (replacing any
     * earlier one) and jumps to its box top, clamped; expanding removes the
     * file and restores a saved offset, clamped, and forgets it, or keeps
     * the offset when none was saved.
     */
    ghost predicate Toggled(offset0: nat, collapsed0: set<nat>, saved0: map<nat, nat>)
      reads this
    {
      var idx := CurrentFile(rows, offset0);
      if idx == -1 then
        collapsed == collapsed0 && savedScroll == saved0 && scrollOffset == offset0
      else if idx !in collapsed0 then
        collapsed == collapsed0 + {idx} &&
        savedScroll == saved0[idx := offset0] &&
        scrollOffset == Clamp(FindRow(rows, idx), MaxOffset(rows, height))
      else
        collapsed == collapsed0 - {idx} &&
        if idx in saved0 then
          savedScroll == saved0 - {idx} &&
          scrollOffset == Clamp(saved0[idx], MaxOffset(rows, height))
        else
          savedScroll == saved0 && scrollOffset == offset0
    }

    /**
     * Enter / `o`: flip the current file's membership in the collapsed set.
     * Collapsing saves the offset for the file (replacing any earlier one)
     * and jumps to its box top; expanding restores a saved offset, clamped,
     * and forgets it, or leaves the offset alone when none was saved.
     */
    method ToggleCollapse()
      requires Valid()
      modifies this`collapsed, this`savedScroll, this`scrollOffset
      ensures Valid()
      ensures Toggled(old(scrollOffset), old(collapsed), old(savedScroll))
    {
      var idx := CurrentFileIndex();
      if idx == -1 {
        return;
      }
      var isCollapsing := idx !in collapsed;
      if idx in collapsed {
        collapsed := collapsed - {idx};
      } else {
        collapsed := collapsed + {idx};
      }
      if isCollapsing {
        savedScroll := savedScroll[idx := scrollOffset];
        var row := FindFileRow(idx);
        scrollOffset := Clamp(row, MaxOffset(rows, height));
      } else {
        if idx in savedScroll {
          var saved := savedScroll[idx];
          scrollOffset := Clamp(saved, MaxOffset(rows, height));
          savedScroll := savedScroll - {idx};
        }
      }
    }

    /**
     * `h` (either case): show help and restart the hide timer, 200 ms when
     * help is already showing and 600 ms when it was hidden.
     */
    method PressHelp()
      requires Valid()
      modifies this`showHelp, this`helpTimer
      ensures Valid()
      ensures showHelp && helpTimer == Some(HelpDelay(old(showHelp)))
    {
      var delay := if showHelp then 200 else 600;
      showHelp := true;
      helpTimer := Some(delay);
    }

    /** The hide timer fires: help is hidden and the timer is cleared. */
    method HelpTimerFired()
      requires Valid()
      modifies this`showHelp, this`helpTimer
      ensures Valid()
      ensures !showHelp && helpTimer == None
    {
      showHelp := false;
      helpTimer := None;
    }

    /**
     * The rows or the view height changed: the offset is pulled back
     * inside the new bound, and is otherwise kept.
     */
    method RowsChanged(newRows: seq<FlatRow>, newHeight: int)
      requires Valid()
      modifies this`rows, this`height, this`scrollOffset
      ensures Valid()
      ensures rows == newRows && height == newHeight
      ensures scrollOffset == Min(old(scrollOffset), MaxOffset(newRows, newHeight))
    {
      rows := newRows;
      height := newHeight;
      scrollOffset := Min(scrollOffset, MaxOffset(rows, height));
    }

    /**
     * What command `cmd` does to the state and which effect it reports:
     * help shows and restarts its timer; `q`, `r`, `c` and unbound keys
     * leave the navigation state alone (`c` asks to close the current
     * file, when there is one); the scrolling keys and the file jumps move
     * the offset only; Enter / `o` toggles the current file.
     */
    twostate predicate Ran(cmd: Command, effect: Effect)
      reads this
    {
      var kept := scrollOffset == old(scrollOffset) && collapsed == old(collapsed) && savedScroll == old(savedScroll);
      var moved := effect == NoEffect && collapsed == old(collapsed) && savedScroll == old(savedScroll);
      var bound := MaxOffset(rows, height);
      var cur := CurrentFile(rows, old(scrollOffset));
      match cmd
      case HelpCmd => effect == NoEffect && kept && showHelp && helpTimer == Some(HelpDelay(old(showHelp)))
      case QuitCmd => effect == Quit && kept
      case ReloadCmd => effect == Reload && kept
      case CloseCmd => effect == (if cur == -1 then NoEffect else CloseFile(cur)) && kept
      case Unbound => effect == NoEffect && kept
      case DownCmd => moved && scrollOffset == Clamp(old(scrollOffset) + 1, bound)
      case UpCmd => moved && scrollOffset == Clamp(old(scrollOffset) - 1, bound)
      case HalfDownCmd => moved && scrollOffset == Clamp(old(scrollOffset) + HalfPage(height), bound)
      case HalfUpCmd => moved && scrollOffset == Clamp(old(scrollOffset) - HalfPage(height), bound)
      case TopCmd => moved && scrollOffset == 0
      case BottomCmd => moved && scrollOffset == bound
      case NextCmd =>
        var next := NextIn(Order(rows), cur);
        moved && scrollOffset == if cur == -1 || next == -1 then old(scrollOffset) else Clamp(FindRow(rows, next), bound)
      case PrevCmd =>
        var prev := PrevIn(Order(rows), cur);
        moved && scrollOffset == if cur == -1 || prev == -1 then old(scrollOffset) else Clamp(FindRow(rows, prev), bound)
      case ToggleCmd => effect == NoEffect && Toggled(old(scrollOffset), old(collapsed), old(savedScroll))
    }

    /**
     * The input handler: `h` first, then every other key is ignored while
     * help shows; `q` and `r` only report an effect; the remaining keys
     * run their transition.
     */
    method HandleInput(input: string, key: Key) returns (effect: Effect)
      requires Valid()
      modifies this`scrollOffset, this`collapsed, this`savedScroll, this`showHelp, this`helpTimer
      ensures Valid()
      ensures rows == old(rows) && height == old(height)
      ensures !IsHelpKey(input) && old(showHelp) ==>
        effect == NoEffect && showHelp == old(showHelp) && helpTimer == old(helpTimer) &&
        scrollOffset == old(scrollOffset) && collapsed == old(collapsed) && savedScroll == old(savedScroll)
      ensures effect == Quit <==> !IsHelpKey(input) && !old(showHelp) && input == "q"
      ensures effect == Reload <==> !IsHelpKey(input) && !old(showHelp) && input == "r"
      ensures effect.CloseFile? ==> effect.fileIndex == CurrentFile(rows, old(scrollOffset))
      ensures !IsHelpKey(input) ==> showHelp == old(showHelp) && helpTimer == old(helpTimer)
      ensures IsHelpKey(input) || !old(showHelp) ==> Ran(KeyCommand(input, key), effect)
    {
      var cmd := KeyCommand(input, key);
      if cmd == HelpCmd {
        PressHelp();
        return NoEffect;
      }
      if showHelp {
        return NoEffect;
      }
      effect := RunCommand(cmd);
    }

    /** The handler past the help key and the help gate: one command's transition. */
    method RunCommand(cmd: Command) returns (effect: Effect)
      requires Valid() && cmd != HelpCmd
      modifies this`scrollOffset, this`collapsed, this`savedScroll
      ensures Valid()
      ensures Ran(cmd, effect)
    {
      effect := NoEffect;
      match cmd {
        case QuitCmd => effect := Quit;
        case ReloadCmd => effect := Reload;
        case DownCmd => ScrollDown();
        case UpCmd => ScrollUp();
        case HalfDownCmd => HalfPageDown();
        case HalfUpCmd => HalfPageUp();
        case TopCmd => JumpTop();
        case BottomCmd => JumpBottom();
        case NextCmd => NextFile();
        case PrevCmd => PrevFile();
        case CloseCmd => effect := CloseCurrent();
        case ToggleCmd => ToggleCollapse();
        case Unbound =>
      }
    }
  }
}
