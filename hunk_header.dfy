/**
 * The hunk banner row: every tab becomes four spaces, then the text is
 * cut or padded to the view width.
 */
module HunkHeaders {
  import opened JsText
  import opened LinePairs

  /** The number of tabs in `s`. */
  function Tabs(s: string): nat
  {
    if s == [] then 0 else (if s[0] == '\t' then 1 else 0) + Tabs(s[1..])
  }

  /** `content.replace(/\t/g, "    ")`. */
  function ExpandTabs(s: string): (r: string)
    ensures |r| == |s| + 3 * Tabs(s)
    ensures forall k :: 0 <= k < |r| ==> r[k] != '\t'
  {
    if s == [] then []
    else (if s[0] == '\t' then "    " else [s[0]]) + ExpandTabs(s[1..])
  }

  /** Expansion works piecewise: the text around the tabs is kept as it is. */
  lemma {:induction false} ExpandTabsAppend(a: string, b: string)
    ensures ExpandTabs(a + b) == ExpandTabs(a) + ExpandTabs(b)
  {
    if a == [] {
      assert a + b == b;
    } else {
      assert (a + b)[0] == a[0] && (a + b)[1..] == a[1..] + b;
      ExpandTabsAppend(a[1..], b);
    }
  }

  /** A tab becomes exactly four spaces; any other character stays. */
  lemma ExpandOne(c: char)
    ensures ExpandTabs([c]) == if c == '\t' then "    " else [c]
  {
    assert [c][1..] == [];
  }

  /** Text without tabs is left alone. */
  lemma {:induction false} NoTabsUnchanged(s: string)
    requires forall k :: 0 <= k < |s| ==> s[k] != '\t'
    ensures ExpandTabs(s) == s
  {
    if s != [] {
      assert forall k :: 0 <= k < |s[1..]| ==> s[1..][k] == s[k + 1];
      NoTabsUnchanged(s[1..]);
      assert [s[0]] + s[1..] == s;
    }
  }

  /** The banner text: the expanded content, cut or padded to `width`. */
  function HunkHeaderText(content: string, width: int): (r: string)
    ensures width >= 0 ==> |r| == width
    ensures var e := ExpandTabs(content);
      (width >= 0 && |e| >= width ==> r == e[..width]) &&
      (|e| < width ==> r[..|e|] == e && forall k :: |e| <= k < |r| ==> r[k] == ' ')
    ensures forall k :: 0 <= k < |r| ==> r[k] != '\t'
  {
    var expanded := ExpandTabs(content);
    if |expanded| >= width then SliceTo(expanded, width) else expanded + Spaces(width - |expanded|)
  }

  /** The banner's expression is `fitTo` applied to the expanded content. */
  lemma HeaderIsFitTo(content: string, width: int)
    ensures HunkHeaderText(content, width) == FitTo(ExpandTabs(content), width)
  {
  }
}
