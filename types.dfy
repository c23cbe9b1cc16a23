/**
 * The value types of the diff viewer: the parsed diff structure that the
 * core receives (files, hunks and change lines), the rows the aligner makes
 * of one hunk, and the flat rows that the viewport draws.
 */
module Types {

  datatype Option<T> = None | Some(value: T)

  /**
   * One line of a hunk. A context line carries both line numbers; a deleted
   * line carries its number on the old side and an added line its number on
   * the new side. `content` includes the leading diff marker.
   */
  datatype Change =
    | Normal(content: string, ln1: int, ln2: int)
    | Del(content: string, ln: int)
    | Add(content: string, ln: int)

  /** A hunk: its `@@ ... @@` banner, its range metadata and its lines. */
  datatype Chunk = Chunk(
    content: string,
    oldStart: int, oldLines: int,
    newStart: int, newLines: int,
    changes: seq<Change>)

  /** A parsed file of the diff. */
  datatype ProcessedFile = ProcessedFile(
    from: string, to: string,
    additions: int, deletions: int,
    binary: bool,
    chunks: seq<Chunk>)

  /** One side of an aligned row. */
  datatype AlignedSide = AlignedSide(lineNum: int, content: string)

  datatype RowType = ContextRow | ChangeRow

  /** A side-by-side row; a missing side is `None` (the source's `null`). */
  datatype AlignedRow = AlignedRow(rowType: RowType, left: Option<AlignedSide>, right: Option<AlignedSide>)

  /** The rows fed to the viewport, one per screen line. */
  datatype FlatRow =
    | Summary(totalFiles: int, additions: int, deletions: int)
    | FileBoxTop(fileIndex: nat, file: ProcessedFile)
    | FileBoxBottom(fileIndex: nat)
    | HunkHeader(fileIndex: nat, content: string)
    | LinePair(fileIndex: nat, row: AlignedRow)
}
