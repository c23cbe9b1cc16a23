/**
 * The view-mode steppers that tests/view-mode.test.ts exercises: the
 * `[` key moves the view towards the right pane, the `]` key towards the
 * left pane, and either stops at its end.
 */
module ViewModes {

  datatype ViewMode = Left | Both | Right

  /** Position of a mode from the left pane to the right pane. */
  function Rank(m: ViewMode): nat
  {
    match m
    case Left => 0
    case Both => 1
    case Right => 2
  }

  /** `cycleViewModeRight`: one step towards `right`, which stays put. */
  function CycleRight(m: ViewMode): (r: ViewMode)
    ensures Rank(r) == if Rank(m) == 2 then 2 else Rank(m) + 1
  {
    match m
    case Left => Both
    case Both => Right
    case Right => Right
  }

  /** `cycleViewModeLeft`: one step towards `left`, which stays put. */
  function CycleLeft(m: ViewMode): (r: ViewMode)
    ensures Rank(r) == if Rank(m) == 0 then 0 else Rank(m) - 1
  {
    match m
    case Left => Left
    case Both => Left
    case Right => Both
  }

  /** A mode is determined by its rank. */
  lemma RankInjective(a: ViewMode, b: ViewMode)
    ensures Rank(a) == Rank(b) ==> a == b
  {
  }

  /** Stepping one way and back returns to the start, except from the end stepped into. */
  lemma StepBack(m: ViewMode)
    ensures m != Right ==> CycleLeft(CycleRight(m)) == m
    ensures m != Left ==> CycleRight(CycleLeft(m)) == m
  {
    RankInjective(CycleLeft(CycleRight(m)), m);
    RankInjective(CycleRight(CycleLeft(m)), m);
  }

  /** Two steps reach the far end from anywhere, and the ends are fixed points. */
  lemma TwoStepsReachTheEnd(m: ViewMode)
    ensures CycleRight(CycleRight(m)) == Right
    ensures CycleLeft(CycleLeft(m)) == Left
    ensures CycleRight(Right) == Right && CycleLeft(Left) == Left
  {
  }
}
