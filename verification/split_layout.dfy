/**
  The split-panel arithmetic of EmployeesControl: from the width of the
  control and three wishes (where the splitter should sit, how narrow each
  panel may get), the three values assigned to the SplitContainer, in the
  order SplitterDistance, Panel1MinSize, Panel2MinSize.
 */
module SplitLayout {
  import opened Common

  /** The values assigned to the splitter and to the two panel minimums. */
  datatype Layout = Layout(splitter: int, panel1Min: int, panel2Min: int)

  /** The constants the Load handler declares and ParentChanged passes on. */
  const DesiredLeftWidth: int := 360
  const LeftPanelMin: int := 240
  const RightPanelMin: int := 200

  function Max(a: int, b: int): int {
    if a >= b then a else b
  }

  function Min(a: int, b: int): int {
    if a <= b then a else b
  }

  /** Math.Clamp, which throws when lo > hi; every caller here passes lo == 0 <= hi. */
  function Clamp(v: int, lo: int, hi: int): (r: int)
    requires lo <= hi
    ensures lo <= r <= hi
    ensures lo <= v <= hi ==> r == v
    ensures v < lo ==> r == lo
    ensures v > hi ==> r == hi
  {
    if v < lo then lo else if v > hi then hi else v
  }

  /**
    The safe layout for a container `totalWidth` wide: the splitter is pulled
    into [0, max(0, totalWidth - panel2Min)]; the right minimum is shrunk
    first so that both minimums fit, then the left minimum to what is left.
   */
  function SafeLayout(totalWidth: int, desired: int, panel1Min: int, panel2Min: int): (l: Layout)
    ensures 0 <= l.splitter <= Max(0, totalWidth - panel2Min)
    ensures panel2Min >= 0 ==>
      0 <= l.panel2Min <= panel2Min && l.panel2Min <= Max(0, totalWidth - panel1Min)
    ensures totalWidth >= 0 && panel1Min >= 0 && panel2Min >= 0 ==>
      0 <= l.panel1Min <= panel1Min && l.panel1Min + l.panel2Min <= totalWidth
  {
    var splitter := Clamp(desired, 0, Max(0, totalWidth - panel2Min));
    var right := Min(panel2Min, Max(0, totalWidth - panel1Min));
    var left := Min(panel1Min, Max(0, totalWidth - right));
    Layout(splitter, left, right)
  }

  /**
    When both minimums fit, neither is shrunk; when moreover the wish is at
    least the left minimum, the splitter sits between the two minimums.
   */
  lemma RoomyLayoutKeepsMinimums(totalWidth: int, desired: int, panel1Min: int, panel2Min: int)
    requires panel1Min >= 0 && panel2Min >= 0
    requires totalWidth >= panel1Min + panel2Min
    ensures SafeLayout(totalWidth, desired, panel1Min, panel2Min).panel1Min == panel1Min
    ensures SafeLayout(totalWidth, desired, panel1Min, panel2Min).panel2Min == panel2Min
    ensures desired >= panel1Min ==>
      panel1Min <= SafeLayout(totalWidth, desired, panel1Min, panel2Min).splitter <= totalWidth - panel2Min
  {
  }

  /**
    With the control's own constants and a width of at least 440 the
    minimums stay 240 and 200 and the splitter lies between them.
   */
  lemma DefaultLayoutWhenWide(totalWidth: int)
    requires totalWidth >= LeftPanelMin + RightPanelMin
    ensures var l := SafeLayout(totalWidth, DesiredLeftWidth, LeftPanelMin, RightPanelMin);
      l.panel1Min == LeftPanelMin && l.panel2Min == RightPanelMin &&
      LeftPanelMin <= l.splitter <= totalWidth - RightPanelMin &&
      l.splitter == Min(DesiredLeftWidth, totalWidth - RightPanelMin)
  {
    RoomyLayoutKeepsMinimums(totalWidth, DesiredLeftWidth, LeftPanelMin, RightPanelMin);
  }

  /**
    With the control's constants and a known width, the splitter respects the
    left minimum that is assigned after it exactly when the width is at least 440.
   */
  lemma DefaultSplitterRespectsLeftMinimum(totalWidth: int)
    requires totalWidth > 0
    ensures var l := SafeLayout(totalWidth, DesiredLeftWidth, LeftPanelMin, RightPanelMin);
      l.splitter >= l.panel1Min <==> totalWidth >= LeftPanelMin + RightPanelMin
  {
  }

  /** The narrow case written out: at width 400 the splitter (200) is left of the left minimum (240). */
  lemma NarrowLayoutExample()
    ensures SafeLayout(400, DesiredLeftWidth, LeftPanelMin, RightPanelMin) == Layout(200, 240, 160)
  {
  }

  /**
    What EmployeesControl_Load computes for a client width: None when the
    width, raised to at least 1, is still 1 (the handler re-posts itself).
   */
  function LoadLayout(clientWidth: int): Option<Layout> {
    var totalWidth := Max(1, clientWidth);
    if totalWidth <= 1 then None
    else Some(SafeLayout(totalWidth, DesiredLeftWidth, LeftPanelMin, RightPanelMin))
  }

  /** What SetSafeSplitterDistance computes: None while the width is not positive. */
  function DeferredLayout(clientWidth: int, desired: int, panel1Min: int, panel2Min: int): Option<Layout> {
    if clientWidth <= 0 then None
    else Some(SafeLayout(clientWidth, desired, panel1Min, panel2Min))
  }

  /**
    The two entry points guard differently and otherwise agree: Load waits
    while the width is at most 1, SetSafeSplitterDistance only while it is at
    most 0, and from width 2 on both produce the same triple.
   */
  lemma LoadAgreesWithDeferredLayout(clientWidth: int)
    ensures LoadLayout(clientWidth).None? <==> clientWidth <= 1
    ensures DeferredLayout(clientWidth, DesiredLeftWidth, LeftPanelMin, RightPanelMin).None? <==> clientWidth <= 0
    ensures clientWidth >= 2 ==>
      LoadLayout(clientWidth) == DeferredLayout(clientWidth, DesiredLeftWidth, LeftPanelMin, RightPanelMin)
  {
  }
}
