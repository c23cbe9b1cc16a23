/**
 * The top edge of a file's box: corner, expand/collapse icon, the file's
 * name (cut with an ellipsis when it does not fit), a run of box-drawing
 * fill, the change counts and the other corner.
 */
module FileBoxTops {
  import opened Types
  import opened JsText

  const DevNull: string := "/dev/null"

  /** The name shown: the new path for a new or unrenamed file, else `from → to`. */
  function Name(file: ProcessedFile): (r: string)
    ensures r == file.to <==> file.from == DevNull || file.from == file.to
    ensures r != file.to ==> r == file.from + " → " + file.to
  {
    if file.from == DevNull then file.to
    else if file.from == file.to then file.to
    else file.from + " → " + file.to
  }

  /** ▶ for a collapsed file, ▼ for an expanded one. */
  function Icon(collapsed: bool): (r: string)
    ensures |r| == 1
    ensures r == if collapsed then "▶" else "▼"
  {
    if collapsed then "▶" else "▼"
  }

  /** `+A -D`. */
  function Stats(file: ProcessedFile): (r: string)
    ensures |r| == |IntToString(file.additions)| + |IntToString(file.deletions)| + 3
    ensures var a := IntToString(file.additions);
      r[0] == '+' && r[1..|a| + 1] == a &&
      r[|a| + 1..|a| + 3] == " -" && r[|a| + 3..] == IntToString(file.deletions)
  {
    var a := IntToString(file.additions);
    var d := IntToString(file.deletions);
    var r := "+" + a + " -" + d;
    assert r[|a| + 1..|a| + 3] == " -";
    r
  }

  function Prefix(collapsed: bool): (r: string)
    ensures |r| == 5
  {
    "╭─ " + Icon(collapsed) + " "
  }

  function Suffix(stats: string): (r: string)
    ensures |r| == |stats| + 4
  {
    " " + stats + " ─╮"
  }

  /** `availableForName`: the width less the prefix, the suffix and the two spaces around the name. */
  function AvailableForName(width: int, stats: string): (r: int)
    ensures r == width - |stats| - 11
  {
    width - |Prefix(false)| - |Suffix(stats)| - 2
  }

  /**
   * `displayName`: a name longer than the room it has, when that room is
   * more than three characters, is cut to the room with its last
   * character an ellipsis; any other name is shown whole.
   */
  function DisplayName(name: string, available: int): (r: string)
    ensures |name| > available > 3 ==>
      |r| == available && r[..available - 1] == name[..available - 1] && r[available - 1] == '…'
    ensures !(|name| > available > 3) ==> r == name
    ensures available > 3 ==> |r| <= available || r == name
  {
    if |name| > available && available > 3 then SliceTo(name, available - 1) + "…" else name
  }

  /** The icon takes two terminal cells but one character. */
  const IconExtraWidth: int := 1

  /** `fillLen`: the fill that brings the edge to the width, never negative. */
  function FillLen(width: int, prefix: string, afterName: string, suffix: string): (r: nat)
    ensures width - |prefix| - |afterName| - |suffix| - IconExtraWidth >= 0 ==>
      r == width - |prefix| - |afterName| - |suffix| - IconExtraWidth
    ensures width - |prefix| - |afterName| - |suffix| - IconExtraWidth < 0 ==> r == 0
  {
    Max(0, width - |prefix| - |afterName| - |suffix| - IconExtraWidth)
  }

  /** The edge built from a given room for the name. */
  function LineWith(file: ProcessedFile, collapsed: bool, width: int, available: int): string
  {
    var prefix := Prefix(collapsed);
    var suffix := Suffix(Stats(file));
    var afterName := " " + DisplayName(Name(file), available) + " ";
    var fill := RepeatChar('─', FillLen(width, prefix, afterName, suffix));
    prefix + afterName + fill + suffix
  }

  /** The top edge as the source builds it. */
  function Line(file: ProcessedFile, collapsed: bool, width: int): string
  {
    LineWith(file, collapsed, width, AvailableForName(width, Stats(file)))
  }

  /**
   * The edge is the prefix, the name between spaces, `fillLen` box-drawing
   * characters and the suffix; its length is the width less one unless
   * the parts alone are longer.
   */
  lemma LineShape(file: ProcessedFile, collapsed: bool, width: int, available: int)
    ensures var dn := DisplayName(Name(file), available);
      var stats := Stats(file);
      var r := LineWith(file, collapsed, width, available);
      r[..5] == Prefix(collapsed) &&
      r[5..7 + |dn|] == " " + dn + " " &&
      r[|r| - (|stats| + 4)..] == Suffix(stats) &&
      |r| == Max(width - 1, 11 + |dn| + |stats|) &&
      forall k :: 7 + |dn| <= k < |r| - (|stats| + 4) ==> r[k] == '─'
  {
    var prefix := Prefix(collapsed);
    var dn := DisplayName(Name(file), available);
    var suffix := Suffix(Stats(file));
    var afterName := " " + dn + " ";
    EdgeLayout(prefix, dn, RepeatChar('─', FillLen(width, prefix, afterName, suffix)), suffix);
  }

  /** Where the pieces of the top edge sit. */
  lemma EdgeLayout(prefix: string, dn: string, fill: string, suffix: string)
    requires |prefix| == 5 && forall k :: 0 <= k < |fill| ==> fill[k] == '─'
    ensures var r := prefix + (" " + dn + " ") + fill + suffix;
      |r| == 7 + |dn| + |fill| + |suffix| &&
      r[..5] == prefix &&
      r[5..7 + |dn|] == " " + dn + " " &&
      r[|r| - |suffix|..] == suffix &&
      forall k :: 7 + |dn| <= k < |r| - |suffix| ==> r[k] == '─'
  {
    var afterName := " " + dn + " ";
    var r := prefix + afterName + fill + suffix;
    assert r[..5] == prefix;
    assert r[5..7 + |dn|] == afterName;
    assert r[|r| - |suffix|..] == suffix;
    forall k | 7 + |dn| <= k < |r| - |suffix| ensures r[k] == '─' {
      assert r[k] == fill[k - 7 - |dn|];
    }
  }

  /** The bottom edge: corners around `width - 3` box-drawing characters. */
  function BottomLine(width: int): (r: string)
    ensures |r| == Max(2, width - 1)
  {
    "╰" + RepeatChar('─', Max(0, width - 3)) + "╯"
  }

  /**
   * As written, the room for the name leaves out the character `fillLen`
   * keeps back for the icon, so a name that fills the room exactly, or is
   * cut to it, makes the top edge one character longer than the bottom
   * edge, which every shorter name matches.
   */
  lemma LineOverflows(file: ProcessedFile, collapsed: bool, width: int)
    requires var avail := AvailableForName(width, Stats(file));
      avail > 3 && |Name(file)| >= avail
    ensures |Line(file, collapsed, width)| == width
    ensures |Line(file, collapsed, width)| == |BottomLine(width)| + 1
  {
    LineShape(file, collapsed, width, AvailableForName(width, Stats(file)));
  }

  /** As written, a name shorter than its room gives a top edge as long as the bottom edge. */
  lemma ShortNameMatches(file: ProcessedFile, collapsed: bool, width: int)
    requires |Name(file)| < AvailableForName(width, Stats(file))
    ensures |Line(file, collapsed, width)| == |BottomLine(width)|
  {
    LineShape(file, collapsed, width, AvailableForName(width, Stats(file)));
  }

  /** A concrete case: `abcdefghij`, one addition, one deletion, width 25: 25 characters over 24. */
  lemma LineOverflowsExample()
    ensures var file := ProcessedFile("abcdefghij", "abcdefghij", 1, 1, false, []);
      |Line(file, false, 25)| == 25 && |BottomLine(25)| == 24
  {
    var file := ProcessedFile("abcdefghij", "abcdefghij", 1, 1, false, []);
    assert IntToString(1) == "1";
    assert |Stats(file)| == 5;
    LineOverflows(file, false, 25);
  }

  /** The room for the name once the icon's extra cell is counted too. */
  function FixedAvailableForName(width: int, stats: string): (r: int)
    ensures r == AvailableForName(width, stats) - IconExtraWidth
  {
    width - |Prefix(false)| - |Suffix(stats)| - 2 - IconExtraWidth
  }

  /** The top edge with the icon's extra cell counted in the name's room. */
  function FixedLine(file: ProcessedFile, collapsed: bool, width: int): string
  {
    LineWith(file, collapsed, width, FixedAvailableForName(width, Stats(file)))
  }

  /**
   * With the icon's cell counted, the top edge is as long as the bottom
   * edge whenever the name fits or can be cut to fit.
   */
  lemma FixedLineFits(file: ProcessedFile, collapsed: bool, width: int)
    requires var avail := FixedAvailableForName(width, Stats(file));
      |Name(file)| <= avail || avail > 3
    ensures |FixedLine(file, collapsed, width)| == width - 1
    ensures |FixedLine(file, collapsed, width)| == |BottomLine(width)|
  {
    LineShape(file, collapsed, width, FixedAvailableForName(width, Stats(file)));
  }
}
