/** The guard chain of `onEditorMouseDown`: which mouse presses in the editor gutter
    the widget reacts to, and what it then does. */
module MouseDown {
  import opened ThreadTypes

  /** The editor's classification of what a mouse event hit. */
  datatype MouseTargetType =
    | Unknown | Textarea | GutterGlyphMargin | GutterLineNumbers | GutterLineDecorations
    | GutterViewZone | ContentText | ContentEmpty | ContentViewZone | ContentWidget
    | OverviewRuler | Scrollbar | OverlayWidget | OutsideEditor

  /** The parts of an editor mouse event the widget reads. `rangeStartLine` is absent when the
      target has no range; `elementClassName` is absent when there is no target element. */
  datatype MouseEvent = MouseEvent(
    rangeStartLine: Option<int>,
    leftButton: bool,
    targetType: MouseTargetType,
    offsetX: int,
    glyphMarginWidth: int,
    lineNumbersWidth: int,
    glyphMarginLeft: int,
    elementClassName: Option<string>)

  /** What the widget does with a press. */
  datatype Decision = Ignore | Toggle(line: int) | Display(line: int) | Hide

  /** Presses further right than this inside the decorations column belong to folding and
      version-control decorations. */
  const GutterThreshold := 14

  const ThreadClassMarker := "comment-thread"

  function GutterOffsetX(e: MouseEvent): int
  {
    e.offsetX - e.glyphMarginWidth - e.lineNumbersWidth - e.glyphMarginLeft
  }

  predicate OccursAt(s: string, t: string, k: int)
  {
    0 <= k && k + |t| <= |s| && s[k..k + |t|] == t
  }

  /** `String.prototype.indexOf`: the first position at which t occurs in s, or -1. */
  function FindSubstring(s: string, t: string): (r: int)
    ensures r == -1 || OccursAt(s, t, r)
    ensures r == -1 <==> forall k :: !OccursAt(s, t, k)
    ensures forall k :: 0 <= k < r ==> !OccursAt(s, t, k)
    decreases |s|
  {
    if |t| <= |s| && s[..|t|] == t then 0
    else if |s| == 0 then -1
    else
      var k := FindSubstring(s[1..], t);
      assert forall j :: OccursAt(s[1..], t, j) <==> OccursAt(s, t, j + 1) by {
        forall j ensures OccursAt(s[1..], t, j) <==> OccursAt(s, t, j + 1) {
          if 0 <= j && j + |t| <= |s| - 1 {
            assert s[1..][j..j + |t|] == s[j + 1..j + 1 + |t|];
          }
        }
      }
      assert !OccursAt(s, t, 0);
      assert forall j :: OccursAt(s, t, j) ==> j == 0 || OccursAt(s[1..], t, j - 1);
      if k == -1 then -1 else k + 1
  }

  /** `element.className.indexOf('comment-thread') >= 0` */
  predicate HasThreadClass(className: string)
  {
    FindSubstring(className, ThreadClassMarker) >= 0
  }

  /** All the guards that must pass before the widget reacts to a press. */
  predicate Accepted(e: MouseEvent, glyphLine: Option<int>)
  {
    && e.rangeStartLine.Some?
    && e.leftButton
    && e.targetType == GutterLineDecorations
    && GutterOffsetX(e) <= GutterThreshold
    && e.elementClassName.Some?
    && glyphLine == Some(e.rangeStartLine.value)
  }

  /** `onEditorMouseDown` as a decision: each guard returns early in the source's order
      (the repeated range and target-type checks always pass once reached). The press
      toggles when it lands on the thread's own decoration; otherwise it expands a
      collapsed thread and hides any other. */
  function Decide(e: MouseEvent, glyphLine: Option<int>, state: Option<CollapsibleState>): (d: Decision)
    ensures d.Ignore? <==> !Accepted(e, glyphLine)
    ensures d.Toggle? <==> Accepted(e, glyphLine) && HasThreadClass(e.elementClassName.value)
    ensures d.Display? <==>
      Accepted(e, glyphLine) && !HasThreadClass(e.elementClassName.value) && state == Some(Collapsed)
    ensures d.Hide? <==>
      Accepted(e, glyphLine) && !HasThreadClass(e.elementClassName.value) && state != Some(Collapsed)
    ensures (d.Toggle? || d.Display?) ==> glyphLine == Some(d.line) && e.rangeStartLine == Some(d.line)
  {
    if e.rangeStartLine.None? then Ignore
    else if !e.leftButton then Ignore
    else if e.targetType != GutterLineDecorations then Ignore
    else if GutterOffsetX(e) > GutterThreshold then Ignore
    else
      var lineNumber := e.rangeStartLine.value;
      if e.rangeStartLine.value != lineNumber then Ignore
      else if e.targetType != GutterLineDecorations then Ignore
      else if e.elementClassName.None? then Ignore
      else if glyphLine != Some(lineNumber) then Ignore
      else if HasThreadClass(e.elementClassName.value) then Toggle(lineNumber)
      else if state == Some(Collapsed) then Display(lineNumber)
      else Hide
  }

  /** A press 15 pixels or more into the decorations column never reaches the widget. */
  lemma FarPressIgnored(e: MouseEvent, glyphLine: Option<int>, state: Option<CollapsibleState>)
    requires GutterOffsetX(e) > GutterThreshold
    ensures Decide(e, glyphLine, state) == Ignore
  {
  }

  /** Any class list containing the marker, e.g. "comment-range-glyph comment-thread", toggles. */
  lemma {:induction false} MarkerAnywhereToggles(prefix: string, suffix: string)
    ensures HasThreadClass(prefix + ThreadClassMarker + suffix)
  {
    var s := prefix + ThreadClassMarker + suffix;
    assert s[|prefix|..|prefix| + |ThreadClassMarker|] == ThreadClassMarker;
    assert OccursAt(s, ThreadClassMarker, |prefix|);
  }
}
