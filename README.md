# sbs core, modelled in Dafny

`sbs` is a terminal side-by-side viewer for `git diff` output. This project
models its display pipeline and proves properties of the model:

- The **row aligner** (`alignChunk`) turns one hunk's context, deleted and
  added lines into side-by-side rows. Context lines fill both sides. Runs of
  deletions and additions are buffered and paired off by position, and the
  shorter side is filled with `null`.
- The **flattener** (`flatten`) turns the parsed files into one list of
  display rows. That list is a summary row, then, for each file that is not
  closed, its box top, its hunk headers and line pairs (when the file is
  neither collapsed nor binary) and its box bottom.
- The **navigation hook**:
  - the scroll bound and clamp;
  - the searches for the current, next and previous file and for a file's
    box-top row;
  - the key handler, modelled as the class `Navigation.Navigator`. Its
    fields are the rows, the view height, the scroll offset, the collapsed
    set, the saved-scroll map, the help flag and the pending help timer.
- The **string helpers of the row components**:
  - `fitTo`, `stripPrefix`, the content width and the sign of a line-pair
    side;
  - tab expansion and fitting of a hunk header;
  - name choice, ellipsis truncation and fill arithmetic of a file box's
    top edge.
- Three functions known only from `tests/view-mode.test.ts`:
  `cycleViewModeRight`, `cycleViewModeLeft` and `computeMaxOffset`.

The modules follow the source files:

| file | module | models |
|---|---|---|
| `types.dfy` | `Types` | `src/types.ts` |
| `align.dfy` | `Aligner` | `src/align.ts` |
| `flatten.dfy` | `Flatten` | `src/flatten.ts` |
| `navigation.dfy` | `Navigation` | `src/hooks/use-navigation.ts` and the re-clamp in `src/app.tsx` |
| `browse.dfy` | `Browsing` | the searches of `src/hooks/use-navigation.ts` run over the rows `flatten` makes |
| `view_mode.dfy` | `ViewModes` | the test-only steppers |
| `line_pair.dfy` | `LinePairs` | `src/components/line-pair.tsx` |
| `hunk_header.dfy` | `HunkHeaders` | `src/components/hunk-header.tsx` |
| `file_box_top.dfy` | `FileBoxTops` | `src/components/file-box-top.tsx` and the bottom edge of `src/components/file-box-bottom.tsx` |
| `js_text.dfy` | `JsText` | the JavaScript string operations these use: `slice`, `repeat`, `padStart`, `String(n)` |
| `seq_facts.dfy` | `SeqFacts` | two facts about sequence concatenation |

The loops of the source are methods with loops:
- `FlushBlock` and `AlignChunk`;
- `Totals`, `PushHunk`, `PushFile` and `Flatten`;
- the four search methods of `Navigator`.

Each of these methods is proved equal to a reference function:
- `Align` for the aligner;
- `FlatRows` for the flattener;
- `CurrentFile`, `FindRow`, `NextIn(Order(..))` and `PrevIn(Order(..))` for
  the searches.

The properties are lemmas about those functions.

`Change` is the tagged union `Normal(content, ln1, ln2) | Del(content, ln) |
Add(content, ln)`. This is the shape `src/parse.ts` produces. It has no
optional line numbers, so the `!` assertions of `src/align.ts` become field
accesses. Lengths count Dafny `char`s, which are Unicode scalar values;
these are the UTF-16 units `.length` counts for text in the Basic
Multilingual Plane.

Where the code and the tests disagree, the model follows the code:
- The hook's `maxOffset` is `max(0, rows.length - height)`
  (src/hooks/use-navigation.ts:32). The `computeMaxOffset` of
  tests/view-mode.test.ts:63-110 also lets the offset reach the row of the last
  box top. That larger bound is `ComputeMaxOffset`. The navigator clamps by
  `MaxOffset`, as the hook does.
- Closing a file only reports the file index through `onCloseFile`; the hook
  changes no state. `src/app.tsx:26` calls `flatten` without a closed set.

## Model

| member | source | states |
|---|---|---|
| Aligner.Pair | src/align.ts:16-26 | a flush of buffers with d deletions and a additions yields max(d, a) rows |
| Aligner.PairAt | src/align.ts:17-25 | row i of a flush pairs `dels[i]` with `adds[i]`, with a missing slot wherever a buffer has no entry i |
| Aligner.PairLeft | src/align.ts:19-23 | the present left slots of a flush are the buffered deletions, in order |
| Aligner.PairRight | src/align.ts:20-24 | the present right slots of a flush are the buffered additions, in order |
| Aligner.PairChangeRows | src/align.ts:21-25 | a flush makes only change rows, and each has at least one slot |
| Aligner.FlushBlock | src/align.ts:16-29 | `flushBlock` appends exactly the rows of `Pair(dels, adds)` (max(d, a) of them) and leaves both buffers empty |
| Aligner.AlignChunk | src/align.ts:10-52 | `alignChunk` returns `Align(chunk.changes)`, the single pass with the pending deletions and additions read as a function |
| Aligner.ContextClosesBlock | src/align.ts:31-39 | a context line after a run of deletions and then additions closes that run: the run is paired up as one flush, the context line is one row of its own, and the lines after it align as if they began the hunk |
| Aligner.AlignFromLeft | src/align.ts:31-49 | from any pending buffers, the present left slots of the change rows are the pending deletions and then the remaining deletions, in input order |
| Aligner.AlignFromRight | src/align.ts:31-49 | the same for additions and right slots |
| Aligner.AlignFromContext | src/align.ts:32-39 | the context rows are exactly one per context line, in order, with (ln1, content) on the left and (ln2, content) on the right |
| Aligner.AlignFromWellFormed | src/align.ts:17-38 | no row has both slots missing, and a context row shows the same content on both sides |
| Aligner.AlignKeepsEveryLine | src/align.ts:31-49 | nothing is lost and order is kept: deletions go left, additions go right and context lines become context rows, each in input order; every row is well formed |
| Aligner.AlignLength | src/align.ts:16-49 | rows plus fully paired rows equal the number of lines, so there are never more rows than lines; there are at least #context + max(#deletions, #additions) rows |
| Aligner.RowCount | src/align.ts:17-25 | in well-formed rows, every slot is counted once: rows + full rows = context rows + left slots + right slots |
| Aligner.BlockIsOneFlush | src/align.ts:40-49 | a run of deletions followed by a run of additions is a single flush: row i pairs the i-th deletion with the i-th addition |
| Aligner.AddsThenDelsNotPaired | src/align.ts:41 | additions followed by deletions are never paired: a deletion after additions flushes first, e.g. [add x, del y] gives (null, x) then (y, null) |
| Aligner.EmptyHunk | src/align.ts:49-51 | an empty hunk aligns to no rows |
| Flatten.Totals | src/flatten.ts:21-29 | the totals loop computes the count, the additions sum and the deletions sum over the files that are not closed |
| Flatten.PushHunk | src/flatten.ts:45-50 | one hunk appends its header with `chunk.content` and then `alignChunk(chunk)` as line pairs of file i |
| Flatten.PushFile | src/flatten.ts:40-54 | one file that is not closed appends its box top with index i, its hunks when neither collapsed nor binary, and its box bottom |
| Flatten.Flatten | src/flatten.ts:14-58 | `flatten` returns `FlatRows`: the summary row, then `FileRows` of each file that is not closed, in index order |
| Flatten.EmptyInput | src/flatten.ts:19-36 | an empty file list gives only the summary (0, 0, 0) |
| Flatten.CollapsedOrBinaryFile | src/flatten.ts:41-54 | a collapsed or binary file contributes exactly [box top, box bottom] |
| Flatten.ExpandedHunks | src/flatten.ts:44-51 | in an expanded file, hunk j's rows (its header with the hunk's banner, then the hunk's aligned rows as line pairs) come right after the rows of hunks 0..j-1, at offset `HunksLength(chunks, j)`, and right before the rows of hunks j+1 on |
| Flatten.FileRowsShape | src/flatten.ts:41-54 | every row of a file carries that file's index, and the file shows exactly one box top, whose additions and deletions are the file's |
| Flatten.SummaryMatchesRows | src/flatten.ts:21-36 | row 0 is the summary; its file count is the number of box tops shown, and its additions and deletions are the sums over those files |
| Flatten.RowsAreTagged | src/flatten.ts:31-55 | exactly one summary row, which is the first row; every other row names a file that is not closed, with an index below the file count; file indices never decrease down the list |
| Flatten.FileSegment | src/flatten.ts:38-55 | the rows tagged with file i are exactly that file's rows, in order: none for a closed or out-of-range index, otherwise box top first, hunks when expanded, box bottom last |
| Flatten.FileRowsLength | src/flatten.ts:41-54 | a file's rows number 2, plus the sum over its hunks of (1 + aligned rows) when it is expanded and not binary |
| Flatten.FlatLength | src/flatten.ts:19-57 | the list's length is 1 plus the sum of those lengths over the files that are not closed |
| Flatten.CollapseOne | src/flatten.ts:43 | adding k to the collapsed set keeps every row above file k's box top and below its box bottom, and replaces its rows by its box top and bottom alone |
| Flatten.TopAt | src/flatten.ts:41 | the box top of a shown file k sits right after the summary and the rows of the shown files before k |
| Navigation.MaxOffset | src/hooks/use-navigation.ts:32 | the scroll bound is `max(0, rows - height)`: it is 0 or `rows - height`, and never below `rows - height` |
| Navigation.Clamp | src/hooks/use-navigation.ts:34 | the result lies in [0, max]: unchanged inside, 0 below, max above |
| Navigation.HalfPage | src/hooks/use-navigation.ts:136 | `Math.floor(height / 2)`: 2r <= height < 2r + 2 |
| Navigation.ComputeMaxOffset | tests/view-mode.test.ts:63-110 | test-only: at least `MaxOffset`, at least the index of every box top, and equal to `MaxOffset` or to the row of a box top |
| Navigation.TopAtOrBefore | src/hooks/use-navigation.ts:47-50 | the nearest box-top row at or before i, skipping indices past the end; none only when no such row exists |
| Navigation.TopFrom | src/hooks/use-navigation.ts:52-55 | the first box-top row at or after i; none only when no such row exists |
| Navigation.CurrentFile | src/hooks/use-navigation.ts:46-57 | -1 exactly when the rows have no box top; otherwise the file of some box top |
| Navigation.CurrentFileIsNearest | src/hooks/use-navigation.ts:46-57 | the file reported is that of the nearest box top at or before the offset, and otherwise that of the first one after it |
| Navigation.TopOfFrom | src/hooks/use-navigation.ts:61-64 | the first box top of the given file at or after row i |
| Navigation.FindRow | src/hooks/use-navigation.ts:60-66 | the first box-top row with the given file index, or 0 when there is none |
| Navigation.NextScanFound | src/hooks/use-navigation.ts:71-76 | once `found` is set, the scan returns the file of the next box top, or -1 |
| Navigation.NextScanIsNextIn | src/hooks/use-navigation.ts:69-78 | the `found` scan returns the file after the first occurrence of `after` in the box-top order, -1 at the end or when `after` is absent; no wraparound |
| Navigation.PrevScanIsPrevOf | src/hooks/use-navigation.ts:81-90 | the `prev` scan returns the file before the first occurrence of `before` in the box-top order, -1 at the start or when `before` is absent |
| Navigation.HelpDelay | src/hooks/use-navigation.ts:97 | 200 ms when help is already shown, 600 ms when it is hidden |
| Navigation.Navigator.constructor | src/app.tsx:22-24 | the navigator starts at offset 0, with nothing collapsed and help hidden (the `useState` initial values), and with no saved offsets and no timer (the empty refs of src/hooks/use-navigation.ts:36-37) |
| Navigation.Navigator.CurrentFileIndex | src/hooks/use-navigation.ts:46-57 | the two loops of `currentFileIndex` return `CurrentFile(rows, scrollOffset)` |
| Navigation.Navigator.FindFileRow | src/hooks/use-navigation.ts:60-66 | the loop of `findFileRow` returns `FindRow` |
| Navigation.Navigator.NextFileIndex | src/hooks/use-navigation.ts:69-78 | the loop of `nextFileIndex` returns the file after `after` in box-top order, or -1 |
| Navigation.Navigator.PrevFileIndex | src/hooks/use-navigation.ts:81-90 | the loop of `prevFileIndex` returns the file before `before` in box-top order, or -1 |
| Navigation.Navigator.ScrollDown | src/hooks/use-navigation.ts:123-126 | `j`/down: the offset becomes clamp(offset + 1) and stays within [0, maxOffset] |
| Navigation.Navigator.ScrollUp | src/hooks/use-navigation.ts:129-132 | `k`/up: the offset becomes clamp(offset - 1) |
| Navigation.Navigator.HalfPageDown | src/hooks/use-navigation.ts:135-138 | `d`/page down: the offset becomes clamp(offset + floor(height / 2)) |
| Navigation.Navigator.HalfPageUp | src/hooks/use-navigation.ts:141-144 | `u`/page up: the offset becomes clamp(offset - floor(height / 2)) |
| Navigation.Navigator.JumpTop | src/hooks/use-navigation.ts:147-150 | `g` without shift: the offset becomes 0 |
| Navigation.Navigator.JumpBottom | src/hooks/use-navigation.ts:153-156 | `G`: the offset becomes maxOffset |
| Navigation.Navigator.NextFile | src/hooks/use-navigation.ts:159-167 | `n`: the offset becomes clamp(findFileRow(next file)); nothing changes when there is no current file or no next one |
| Navigation.Navigator.PrevFile | src/hooks/use-navigation.ts:170-178 | `p`: the same for the previous file |
| Navigation.Navigator.CloseCurrent | src/hooks/use-navigation.ts:181-186 | `c`: reports the current file to close, or nothing when there is none; the state is untouched |
| Navigation.Navigator.ToggleCollapse | src/hooks/use-navigation.ts:189-215 | only the current file's membership in the collapsed set flips. Collapsing saves the offset under that file, overwriting any earlier value, and jumps to clamp(findFileRow). Expanding restores clamp(saved) and removes the entry, or leaves the offset alone when nothing was saved. With no current file, nothing changes |
| Navigation.Navigator.PressHelp | src/hooks/use-navigation.ts:96-105 | `h`/`H`: help shows and the timer restarts with 200 ms or 600 ms |
| Navigation.Navigator.HelpTimerFired | src/hooks/use-navigation.ts:100-103 | the timer firing hides help and clears the timer |
| Navigation.Navigator.RowsChanged | src/app.tsx:30-33 | new rows or height: the offset becomes min(offset, new maxOffset) |
| Navigation.Navigator.HandleInput | src/hooks/use-navigation.ts:92-216 | `h` is handled first; any other key leaves all state alone while help shows; otherwise the key's command (`KeyCommand`, tested in the handler's order) makes exactly its transition `Ran`: `q`, `r`, `c` and unbound keys change nothing and report quit, reload, close of the current file (or nothing when there is none) and nothing; each scrolling key and file jump sets the offset to its formula and touches nothing else; Enter / `o` toggles; rows, height and the help state are changed only by `h` |
| Navigation.Navigator.RunCommand | src/hooks/use-navigation.ts:111-215 | past the help gate, each command's transition `Ran` as listed for `HandleInput` |
| Browsing.VisibleShape | src/flatten.ts:38-39 | the indices below n that are not closed, each once, in ascending order |
| Browsing.OrderFileRows | src/flatten.ts:41-54 | a file's rows hold one box top, its own |
| Browsing.FlatOrder | src/flatten.ts:38-55 | the box tops of `flatten` come one per file that is not closed, in index order |
| Browsing.NextInAscending | src/hooks/use-navigation.ts:69-78 | in an ascending order, the entry after x is the least entry above x, and -1 when there is none |
| Browsing.PrevInAscending | src/hooks/use-navigation.ts:81-90 | in an ascending order, the entry before x is the greatest entry below x, and -1 when there is none |
| Browsing.NextFileIsNextShown | src/hooks/use-navigation.ts:69-78 | on the flattened rows, the next file after shown file i is the least larger index that is not closed, and -1 when all later files are closed |
| Browsing.PrevFileIsPrevShown | src/hooks/use-navigation.ts:81-90 | on the flattened rows, the previous file before i is the greatest smaller index that is not closed, and -1 when all earlier files are closed |
| Browsing.FindShownFile | src/hooks/use-navigation.ts:60-66 | on the flattened rows, `findFileRow` of a shown file is that file's box top, and the current file at that row is that file |
| ViewModes.CycleRight | tests/view-mode.test.ts:5-24 | test-only: one step towards `right` (left → both → right), with right fixed |
| ViewModes.CycleLeft | tests/view-mode.test.ts:26-45 | test-only: one step towards `left` (right → both → left), with left fixed |
| ViewModes.StepBack | tests/view-mode.test.ts:47-61 | test-only: stepping right and then left (or left and then right) returns to the start, except from the end stepped into |
| ViewModes.TwoStepsReachTheEnd | tests/view-mode.test.ts:18-45 | test-only: two steps reach the far end from any mode, and the ends are fixed points |
| LinePairs.FitTo | src/components/line-pair.tsx:11-14 | for width >= 0 the length is exactly the width: the first width characters when the text is long enough, otherwise the text followed by spaces. For a negative width, `slice` drops that many characters from the end |
| LinePairs.StripPrefix | src/components/line-pair.tsx:17-19 | removes exactly the first character; the empty string stays empty |
| LinePairs.ContentWidth | src/components/line-pair.tsx:22-23 | `max(halfWidth - 7, 10)`, so always at least 10 |
| LinePairs.Sign | src/components/line-pair.tsx:42-44 | `-` on the left of a change row, `+` on its right, a space on a context row |
| LinePairs.BlankSide | src/components/line-pair.tsx:29-35 | a null side is `fitTo("", halfWidth)`: halfWidth spaces, or nothing when halfWidth is negative |
| LinePairs.PresentSide | src/components/line-pair.tsx:38-50 | for every line number: a present side is `String(lineNum).padStart(4)` (four columns, or more for a longer number), a space, the sign, a space, and the content without its marker fitted to the content width; its length is that number's width + 3 + the content width |
| LinePairs.SideFillsHalf | src/components/line-pair.tsx:22-40 | for line numbers from -999 to 9999 and a half width of 17 on, a present side is exactly halfWidth characters |
| LinePairs.LongNumberWidensSide | src/components/line-pair.tsx:22-40 | a line number of five characters or more (from 10000, or from -1000 down) makes the side wider than halfWidth, by one column per character beyond four |
| HunkHeaders.ExpandTabs | src/components/hunk-header.tsx:10 | every tab becomes four spaces: the length grows by 3 per tab and no tab remains |
| HunkHeaders.ExpandOne | src/components/hunk-header.tsx:10 | a tab becomes exactly "    " and any other character stays |
| HunkHeaders.ExpandTabsAppend | src/components/hunk-header.tsx:10 | expansion works piece by piece |
| HunkHeaders.NoTabsUnchanged | src/components/hunk-header.tsx:10 | text without tabs is unchanged |
| HunkHeaders.HunkHeaderText | src/components/hunk-header.tsx:10-11 | for width >= 0 the length is the width. The result is the prefix of the expanded text when that text is at least width long. Otherwise it is the expanded text followed by spaces. It never holds a tab |
| HunkHeaders.HeaderIsFitTo | src/components/hunk-header.tsx:11 | the banner is `fitTo` of the expanded text |
| FileBoxTops.Name | src/components/file-box-top.tsx:13-18 | the name is `to` exactly when `from` is `/dev/null` or `from == to`, otherwise `from → to` |
| FileBoxTops.Icon | src/components/file-box-top.tsx:12 | ▶ when collapsed, ▼ otherwise |
| FileBoxTops.Stats | src/components/file-box-top.tsx:20 | `+A -D`: a `+`, then exactly `String(additions)`, then ` -`, then exactly `String(deletions)` |
| FileBoxTops.AvailableForName | src/components/file-box-top.tsx:23-25 | the room for the name is width - |stats| - 11 |
| FileBoxTops.DisplayName | src/components/file-box-top.tsx:27-30 | when the name is longer than the room and the room exceeds 3, it is cut to room - 1 characters plus "…" (length = room); otherwise it is unchanged |
| FileBoxTops.FillLen | src/components/file-box-top.tsx:34-35 | never negative; it equals width - |prefix| - |afterName| - |suffix| - 1 when that is >= 0, and 0 otherwise |
| FileBoxTops.LineShape | src/components/file-box-top.tsx:23-38 | the edge is the prefix, the name between spaces, fill characters ─ and the suffix; its length is max(width - 1, 11 + |name shown| + |stats|) |
| FileBoxTops.BottomLine | src/components/file-box-bottom.tsx:10-13 | the bottom edge has max(2, width - 1) characters |
| FileBoxTops.ShortNameMatches | src/components/file-box-top.tsx:25-38 | a name shorter than its room gives a top edge as long as the bottom edge |
| FileBoxTops.LineOverflows | src/components/file-box-top.tsx:25-35 | as written: a name that fills its room, or is cut to it, makes the top edge `width` characters, one more than the bottom edge |
| FileBoxTops.LineOverflowsExample | src/components/file-box-top.tsx:25-35 | as written: `abcdefghij` with +1 -1 at width 25 gives a top edge of 25 characters over a bottom edge of 24 |
| FileBoxTops.FixedAvailableForName | src/components/file-box-top.tsx:25-34 | corrected: the room for the name also takes off the icon's extra cell |
| FileBoxTops.FixedLineFits | src/components/file-box-top.tsx:25-38 | corrected: whenever the name fits or can be cut, the top edge is width - 1 characters, as long as the bottom edge |
| JsText.SliceEnd | src/components/line-pair.tsx:12 | the end index `slice` uses: the end clamped to [0, len], a negative end counted from the back |
| JsText.SliceTo | src/components/line-pair.tsx:12 | `s.slice(0, end)` is a prefix of s of that length |
| JsText.SliceFrom | src/components/line-pair.tsx:18 | `s.slice(start)` is the characters from `start` on |
| JsText.RepeatChar | src/components/file-box-top.tsx:36 | `c.repeat(n)` is n copies of c |
| JsText.Spaces | src/components/line-pair.tsx:13 | `" ".repeat(n)` is n spaces |
| JsText.PadStart | src/components/line-pair.tsx:38 | `padStart(n, c)` ends with the text and is n long (or the text's length), with c before it |
| JsText.NatToStringRoundTrip | src/components/line-pair.tsx:38 | the decimal digits of n read back as n |
| JsText.IntToString | src/components/line-pair.tsx:38 | `String(n)`: the decimal digits of the magnitude that read back as it, without leading zeros, after a `-` exactly when n is negative |
| JsText.ShortNumber | src/components/line-pair.tsx:38 | numbers from -999 to 9999 take at most four characters |
| JsText.LongNumber | src/components/line-pair.tsx:38 | numbers from 10000 on, or from -1000 down, take at least five characters |

## Left out

- `src/parse.ts`, `src/git.ts` and `src/cli.tsx`: the diff parser library, process execution and terminal escape codes are outside the core. The model takes `ProcessedFile`, `Chunk` and `Change` as given.
- Terminal size (`src/hooks/use-terminal-size.ts`): the height and widths are parameters.
- Timers: `setTimeout` and `clearTimeout` are not modelled. `PressHelp` records the chosen delay in `helpTimer`, and `HelpTimerFired` is the event of that timer running out. Clearing the old timer becomes replacing `helpTimer`.
- Callbacks: `onQuit`, `onReload` and `onCloseFile` are not called. `HandleInput` and `CloseCurrent` return them as an `Effect` value.
- React state: `setScrollOffset` and `setCollapsedFiles` become field updates, and the `rows` behind them are a field. A toggle does not re-flatten those rows; the new rows arrive through `RowsChanged`, which models the re-clamp in `src/app.tsx:30-33`. The clamp inside a key handler therefore uses the rows the handler saw, as the hook's closure does.
- Rendering: JSX, colours, the `Box` widths, `viewport.tsx`, `summary.tsx` and `help-overlay.tsx` are left out. `file-box-bottom.tsx` is kept only for the length of its edge.
- Terminal cell widths: lengths count Dafny `char`s, one per Unicode scalar value, which is what `.length` counts for text in the Basic Multilingual Plane. The two-cell icon is the constant `IconExtraWidth`, as in the source.
- Characters outside the Basic Multilingual Plane: `.length` counts them as two UTF-16 units and `slice` can split such a pair; the model counts them as one and never splits them.
- Key input: `input.toLowerCase() === "h"` becomes `input` being "h" or "H", the only strings that lower-case to "h". `Key` keeps only `upArrow`, `downArrow`, `pageUp`, `pageDown`, `shift` and `return`.
- `ComputeMaxOffset`, `CycleRight` and `CycleLeft`: these are not in the source files; they are modelled from `tests/view-mode.test.ts`. The hook itself uses `MaxOffset`.
- Flatten.Flatten: the source's single function is split into four methods. `Totals` is the totals loop; `PushHunk` and `PushFile` are the bodies of the hunk and file loops; `Flatten` is the file loop. Together they do what the one function does.
- Navigation.Navigator.HandleInput: the handler's one callback is split in two. `HandleInput` handles `h` and the help gate; `RunCommand` runs the rest of the if-chain, whose order `KeyCommand` keeps.
- Aligner.AlignLength: the exact count #context + Σ over blocks of max(d, a) is not stated as a formula. `AlignLength` states the bounds, and `BlockIsOneFlush` plus `FlushBlock` state it block by block.
- Aligner.SideOf: it is defined on context lines too (giving the old-side number), but the aligner only applies it to buffered deletions and additions.
- Flatten.CollapseOne: expanding again simply removes k from the collapsed set. Undoing a collapse is this same equation read backwards; it has no lemma of its own.

## Findings

| source | as written | input that shows it | evidently intended | confidence | as-written member | corrected member |
|---|---|---|---|---|---|---|
| src/components/file-box-top.tsx:25,35 | `availableForName` leaves out the cell that `fillLen` keeps back for the double-width icon. A name that fills or is cut to its room therefore makes the top edge `width` characters (`width + 1` terminal cells). Every shorter name gives `width - 1` characters, the length of the bottom edge | `from = to = "abcdefghij"`, 1 addition, 1 deletion, width 25: the name is cut to 9 characters and the fill is 0, so the top edge is 25 characters over a bottom edge of 24 | the room for the name also takes off `iconExtraWidth`, so the top edge always matches the bottom edge | not executed | FileBoxTops.LineOverflows, FileBoxTops.LineOverflowsExample | FileBoxTops.FixedLineFits, FileBoxTops.FixedLine |
