/**
 * The text of one side of a side-by-side row: a four-wide line number,
 * the change sign and the line's content fitted to the content column;
 * an absent side is blank.
 */
module LinePairs {
  import opened Types
  import opened JsText

  /** `fitTo`: pad with spaces or cut to exactly `width` characters. */
  function FitTo(s: string, width: int): (r: string)
    ensures width >= 0 ==> |r| == width
    ensures width >= 0 && |s| >= width ==> r == s[..width]
    ensures |s| < width ==> r[..|s|] == s && forall k :: |s| <= k < |r| ==> r[k] == ' '
    ensures width < 0 ==> r == s[..Max(0, |s| + width)]
  {
    if |s| >= width then SliceTo(s, width) else s + Spaces(width - |s|)
  }

  /** `stripPrefix`: drop the diff marker, the first character. */
  function StripPrefix(content: string): (r: string)
    ensures content == [] ==> r == []
    ensures content != [] ==> [content[0]] + r == content
  {
    SliceFrom(content, 1)
  }

  /** The line-number gutter (five) and the sign (one), plus one for the separator. */
  const GutterWidth: int := 6

  /** The content column: what is left of the half width, but never below ten. */
  function ContentWidth(halfWidth: int): (r: int)
    ensures r >= 10
    ensures r == halfWidth - 7 || (r == 10 && halfWidth - 7 < 10)
    ensures r >= halfWidth - 7
  {
    Max(halfWidth - GutterWidth - 1, 10)
  }

  /** The sign of a side: `-` on the left of a change row, `+` on its right, else a space. */
  function Sign(rowType: RowType, isLeft: bool): (r: string)
    ensures rowType == ChangeRow && isLeft ==> r == "-"
    ensures rowType == ChangeRow && !isLeft ==> r == "+"
    ensures rowType == ContextRow ==> r == " "
  {
    var isDel := rowType == ChangeRow && isLeft;
    var isAdd := rowType == ChangeRow && !isLeft;
    if isDel then "-" else if isAdd then "+" else " "
  }

  /** `renderSide`: the characters one side of a row shows. */
  function RenderSide(side: Option<AlignedSide>, rowType: RowType, isLeft: bool, halfWidth: int): string
  {
    match side
    case None => FitTo("", halfWidth)
    case Some(s) =>
      PadStart(IntToString(s.lineNum), 4, ' ') + " " + Sign(rowType, isLeft) + " " +
      FitTo(StripPrefix(s.content), ContentWidth(halfWidth))
  }

  /** An absent side is blank: `halfWidth` spaces, or nothing for a negative width. */
  lemma BlankSide(rowType: RowType, isLeft: bool, halfWidth: int)
    ensures var r := RenderSide(None, rowType, isLeft, halfWidth);
      |r| == Max(0, halfWidth) && forall k :: 0 <= k < |r| ==> r[k] == ' '
  {
  }

  /**
   * A present side is the line number right-aligned in four columns (or
   * wider when it has more characters), a space, the sign, a space, then
   * the content without its marker, padded or cut to the content column.
   */
  lemma PresentSide(side: AlignedSide, rowType: RowType, isLeft: bool, halfWidth: int)
    ensures var r := RenderSide(Some(side), rowType, isLeft, halfWidth);
      var num := PadStart(IntToString(side.lineNum), 4, ' ');
      var w := ContentWidth(halfWidth);
      |num| == Max(4, |IntToString(side.lineNum)|) &&
      |r| == |num| + 3 + w &&
      r[..|num|] == num &&
      r[|num|] == ' ' && [r[|num| + 1]] == Sign(rowType, isLeft) && r[|num| + 2] == ' ' &&
      r[|num| + 3..] == FitTo(StripPrefix(side.content), w)
  {
    var num := PadStart(IntToString(side.lineNum), 4, ' ');
    Layout(num, Sign(rowType, isLeft), FitTo(StripPrefix(side.content), ContentWidth(halfWidth)));
  }

  /** Where the pieces of a present side sit. */
  lemma Layout(num: string, sign: string, text: string)
    requires |sign| == 1
    ensures var r := num + " " + sign + " " + text;
      |r| == |num| + 3 + |text| &&
      r[|num|] == ' ' && r[|num| + 2] == ' ' &&
      [r[|num| + 1]] == sign &&
      r[..|num|] == num &&
      r[|num| + 3..] == text
  {
    var r := num + " " + sign + " " + text;
    assert r[..|num|] == num;
    assert r[|num| + 3..] == text;
  }

  /** From a half width of 17 on, a present side with a short line number fills the half width exactly. */
  lemma SideFillsHalf(side: AlignedSide, rowType: RowType, isLeft: bool, halfWidth: int)
    requires -999 <= side.lineNum < 10000 && halfWidth >= 17
    ensures |RenderSide(Some(side), rowType, isLeft, halfWidth)| == halfWidth
  {
    ShortNumber(side.lineNum);
    PresentSide(side, rowType, isLeft, halfWidth);
  }

  /**
   * A line number of five characters or more pushes the side past the half
   * width, by one column per character beyond four.
   */
  lemma LongNumberWidensSide(side: AlignedSide, rowType: RowType, isLeft: bool, halfWidth: int)
    requires (side.lineNum >= 10000 || side.lineNum <= -1000) && halfWidth >= 17
    ensures var r := RenderSide(Some(side), rowType, isLeft, halfWidth);
      |r| == halfWidth + |IntToString(side.lineNum)| - 4 && |r| > halfWidth
  {
    LongNumber(side.lineNum);
    PresentSide(side, rowType, isLeft, halfWidth);
  }
}
