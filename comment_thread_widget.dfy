/** The stateful part of the comment-thread zone widget: expanding, collapsing, hiding and
    deleting the thread's zone, and the reply form's input buffer. The editor's zone widget
    and glyph marker are reduced to the fields they expose: whether the zone is visible,
    the placements it was shown with, and the glyph's line. */
module ThreadWidget {
  import opened ThreadTypes
  import ZoneHeight
  import ThreadLabel
  import MouseDown

  /** Height, in lines, that `display` is first called with by every caller in the widget. */
  const InitialHeightInLines := 2

  /** The `commentIsEmpty` context key, shared by the thread widget and its reply forms. */
  class CommentsContextKeys {
    var commentIsEmpty: bool

    constructor (initial: bool)
      ensures commentIsEmpty == initial
    {
      commentIsEmpty := initial;
    }
  }

  class CommentThreadWidget {
    const keys: CommentsContextKeys

    // The comment thread; it is owned by the host, and the widget writes only its collapsible state.
    var collapsibleState: Option<CollapsibleState>
    var comments: Option<seq<Comment>>
    var threadLabel: Option<string>
    var rangeStartLine: int

    // Readings of the host that `update` uses: the editor's line height and the rendered body's height.
    var lineHeight: nat
    var bodyHeight: nat

    var isExpanded: bool
    /** The line of the glyph marker; absent until the marker is first placed. */
    var glyphLine: Option<int>
    var zoneVisible: bool
    /** Every placement the zone was shown with, the current one last. */
    var zoneShows: seq<Placement>
    /** The title the last render pass put in the zone's head. */
    var title: Option<string>
    var disposed: bool
    /** Requests sent to the comments service to delete this thread. */
    var deleteRequests: nat

    /** While the widget is alive, it considers itself expanded exactly when its zone is visible. */
    ghost predicate Valid()
      reads this
    {
      && lineHeight > 0
      && (!disposed ==> (isExpanded <==> zoneVisible))
      && (zoneVisible ==> |zoneShows| > 0)
    }

    /** The test `collapse` uses: the thread has a comment list and it is empty. */
    predicate HasEmptyComments()
      reads this
    {
      comments.Some? && |comments.value| == 0
    }

    /** The test `toggleExpand` uses: the thread has no comment list or an empty one. */
    predicate LacksComments()
      reads this
    {
      comments.None? || |comments.value| == 0
    }

    /** The placement `update` re-shows the zone with. */
    function FittedPlacement(): Placement
      reads this
      requires lineHeight > 0
    {
      Placement(rangeStartLine, ZoneHeight.ZoneLines(lineHeight, bodyHeight))
    }

    constructor (keys: CommentsContextKeys, rangeStartLine: int, comments: Option<seq<Comment>>,
                 threadLabel: Option<string>, collapsibleState: Option<CollapsibleState>,
                 lineHeight: nat, bodyHeight: nat)
      requires lineHeight > 0
      modifies keys
      ensures Valid()
      ensures this.keys == keys && keys.commentIsEmpty
      ensures this.rangeStartLine == rangeStartLine && this.comments == comments
      ensures this.threadLabel == threadLabel && this.collapsibleState == collapsibleState
      ensures this.lineHeight == lineHeight && this.bodyHeight == bodyHeight
      ensures !isExpanded && glyphLine == None && !zoneVisible && zoneShows == [] && title == None
      ensures !disposed && deleteRequests == 0
    {
      this.keys := keys;
      this.rangeStartLine := rangeStartLine;
      this.comments := comments;
      this.threadLabel := threadLabel;
      this.collapsibleState := collapsibleState;
      this.lineHeight := lineHeight;
      this.bodyHeight := bodyHeight;
      isExpanded := false;
      glyphLine := None;
      zoneVisible := false;
      zoneShows := [];
      title := None;
      disposed := false;
      deleteRequests := 0;
      new;
      keys.commentIsEmpty := true;
    }

    method Hide()
      requires Valid()
      modifies this`zoneVisible, this`isExpanded
      ensures Valid()
      ensures !zoneVisible && !isExpanded
    {
      zoneVisible := false;
      isExpanded := false;
    }

    /** Disposing releases the zone and the glyph marker. */
    method Dispose()
      requires Valid()
      modifies this`disposed
      ensures Valid()
      ensures disposed
    {
      disposed := true;
    }

    method DeleteCommentThread()
      requires Valid()
      modifies this`disposed, this`deleteRequests
      ensures Valid()
      ensures disposed && deleteRequests == old(deleteRequests) + 1
    {
      Dispose();
      deleteRequests := deleteRequests + 1;
    }

    /** Re-renders the zone and fits its height to the content; nothing happens while collapsed. */
    method Update()
      requires Valid()
      modifies this`title, this`zoneShows, this`zoneVisible
      ensures Valid()
      ensures !isExpanded ==> unchanged(this)
      ensures isExpanded ==>
        && title == Some(ThreadLabel.Label(threadLabel, comments))
        && zoneVisible
        && zoneShows == old(zoneShows) + [FittedPlacement()]
    {
      if !isExpanded {
        return;
      }
      title := Some(ThreadLabel.Label(threadLabel, comments));
      zoneShows := zoneShows + [FittedPlacement()];
      zoneVisible := true;
    }

    /** Marks the widget expanded first; then, unless the guard returns early, places the glyph,
        marks the thread expanded, shows the zone at the requested placement and lets `update`
        re-show it fitted to its content at the thread's start line. */
    method Display(options: Placement)
      requires Valid()
      modifies this`isExpanded, this`glyphLine, this`collapsibleState
      modifies this`zoneVisible, this`zoneShows, this`title
      ensures Valid()
      ensures isExpanded
      ensures old(DisplayGuard(collapsibleState)) ==>
        && glyphLine == old(glyphLine) && collapsibleState == old(collapsibleState)
        && zoneVisible == old(zoneVisible) && zoneShows == old(zoneShows) && title == old(title)
      ensures !old(DisplayGuard(collapsibleState)) ==>
        && glyphLine == Some(options.afterLineNumber)
        && collapsibleState == Some(Expanded)
        && zoneVisible
        && zoneShows == old(zoneShows) + [options, FittedPlacement()]
        && title == Some(ThreadLabel.Label(threadLabel, comments))
    {
      isExpanded := true;
      if DisplayGuard(collapsibleState) {
        return;
      }
      glyphLine := Some(options.afterLineNumber);
      collapsibleState := Some(Expanded);
      zoneShows := zoneShows + [options];
      zoneVisible := true;
      Update();
    }

    /** Marks the thread collapsed; a thread whose comment list is present and empty is deleted
        (without hiding the zone first), any other is hidden. */
    method Collapse()
      requires Valid()
      modifies this`collapsibleState, this`zoneVisible, this`isExpanded
      modifies this`disposed, this`deleteRequests
      ensures Valid()
      ensures collapsibleState == Some(Collapsed)
      ensures HasEmptyComments() ==>
        && disposed && deleteRequests == old(deleteRequests) + 1
        && isExpanded == old(isExpanded) && zoneVisible == old(zoneVisible)
      ensures !HasEmptyComments() ==>
        && !isExpanded && !zoneVisible
        && disposed == old(disposed) && deleteRequests == old(deleteRequests)
    {
      collapsibleState := Some(Collapsed);
      if HasEmptyComments() {
        DeleteCommentThread();
        return;
      }
      Hide();
    }

    /** Collapses an expanded widget, deleting a thread that has no comments (absent or empty);
        expands a collapsed one at the given line. */
    method ToggleExpand(lineNumber: int)
      requires Valid()
      modifies this`isExpanded, this`glyphLine, this`collapsibleState
      modifies this`zoneVisible, this`zoneShows, this`title
      modifies this`disposed, this`deleteRequests
      ensures Valid()
      ensures old(isExpanded) ==>
        && collapsibleState == Some(Collapsed) && !isExpanded && !zoneVisible
        && glyphLine == old(glyphLine) && zoneShows == old(zoneShows) && title == old(title)
        && (LacksComments() ==> disposed && deleteRequests == old(deleteRequests) + 1)
        && (!LacksComments() ==> disposed == old(disposed) && deleteRequests == old(deleteRequests))
      ensures !old(isExpanded) ==>
        && isExpanded && collapsibleState == Some(Expanded)
        && glyphLine == Some(lineNumber) && zoneVisible
        && zoneShows == old(zoneShows) + [Placement(lineNumber, InitialHeightInLines), FittedPlacement()]
        && title == Some(ThreadLabel.Label(threadLabel, comments))
        && disposed == old(disposed) && deleteRequests == old(deleteRequests)
    {
      if isExpanded {
        collapsibleState := Some(Collapsed);
        Hide();
        if LacksComments() {
          DeleteCommentThread();
        }
      } else {
        collapsibleState := Some(Expanded);
        Display(Placement(lineNumber, InitialHeightInLines));
      }
    }

    /** The listener on the thread's collapsible state; `state` is the state it is notified of. */
    method OnDidChangeCollapsibleState(state: Option<CollapsibleState>)
      requires Valid()
      modifies this`isExpanded, this`glyphLine, this`collapsibleState
      modifies this`zoneVisible, this`zoneShows, this`title
      ensures Valid()
      ensures state == Some(Expanded) && !old(isExpanded) ==>
        && isExpanded && collapsibleState == Some(Expanded)
        && glyphLine == Some(rangeStartLine) && zoneVisible
        && zoneShows == old(zoneShows) + [Placement(rangeStartLine, InitialHeightInLines), FittedPlacement()]
        && title == Some(ThreadLabel.Label(threadLabel, comments))
      ensures state == Some(Collapsed) && old(isExpanded) ==>
        && !isExpanded && !zoneVisible && collapsibleState == old(collapsibleState)
        && glyphLine == old(glyphLine) && zoneShows == old(zoneShows) && title == old(title)
      ensures !(state == Some(Expanded) && !old(isExpanded)) && !(state == Some(Collapsed) && old(isExpanded)) ==>
        unchanged(this)
    {
      if state == Some(Expanded) && !isExpanded {
        Display(Placement(rangeStartLine, InitialHeightInLines));
        return;
      }
      if state == Some(Collapsed) && isExpanded {
        Hide();
        return;
      }
    }

    /** Reacts to a press in the editor as `MouseDown.Decide` determines. */
    method OnEditorMouseDown(e: MouseDown.MouseEvent)
      requires Valid()
      modifies this`isExpanded, this`glyphLine, this`collapsibleState
      modifies this`zoneVisible, this`zoneShows, this`title
      modifies this`disposed, this`deleteRequests
      ensures Valid()
      ensures var d := MouseDown.Decide(e, old(glyphLine), old(collapsibleState));
        && (d.Ignore? ==> unchanged(this))
        && (d.Toggle? && old(isExpanded) ==>
              && !isExpanded && !zoneVisible && collapsibleState == Some(Collapsed)
              && glyphLine == old(glyphLine) && zoneShows == old(zoneShows) && title == old(title)
              && (LacksComments() ==> disposed && deleteRequests == old(deleteRequests) + 1)
              && (!LacksComments() ==> disposed == old(disposed) && deleteRequests == old(deleteRequests)))
        && (d.Toggle? && !old(isExpanded) ==>
              && isExpanded && zoneVisible && glyphLine == Some(d.line)
              && collapsibleState == Some(Expanded)
              && zoneShows == old(zoneShows) + [Placement(d.line, InitialHeightInLines), FittedPlacement()]
              && title == Some(ThreadLabel.Label(threadLabel, comments))
              && disposed == old(disposed) && deleteRequests == old(deleteRequests))
        && (d.Display? ==>
              && isExpanded && zoneVisible && glyphLine == Some(d.line)
              && collapsibleState == Some(Expanded)
              && zoneShows == old(zoneShows) + [Placement(d.line, InitialHeightInLines), FittedPlacement()]
              && title == Some(ThreadLabel.Label(threadLabel, comments))
              && disposed == old(disposed) && deleteRequests == old(deleteRequests))
        && (d.Hide? ==>
              && !isExpanded && !zoneVisible && collapsibleState == old(collapsibleState)
              && glyphLine == old(glyphLine) && zoneShows == old(zoneShows) && title == old(title)
              && disposed == old(disposed) && deleteRequests == old(deleteRequests))
    {
      var d := MouseDown.Decide(e, glyphLine, collapsibleState);
      match d
      case Ignore =>
      case Toggle(line) => ToggleExpand(line);
      case Display(line) => Display(Placement(line, InitialHeightInLines));
      case Hide => Hide();
    }
  }

  /** The reply form: the text typed so far and the shared `commentIsEmpty` key. */
  class CommentForm {
    const keys: CommentsContextKeys
    var inputValue: string
    /** Whether the form's text area is mounted, i.e. its ref is set. */
    var inputMounted: bool

    ghost predicate FlagAgrees()
      reads this, keys
    {
      keys.commentIsEmpty == (|inputValue| == 0)
    }

    constructor (keys: CommentsContextKeys)
      ensures this.keys == keys && inputValue == "" && !inputMounted
    {
      this.keys := keys;
      inputValue := "";
      inputMounted := false;
    }

    /** The text area is mounted by the first render pass, which sets its ref. */
    method MountInput()
      modifies this`inputMounted
      ensures inputMounted
    {
      inputMounted := true;
    }

    /** Records the new text; the key is written only when the old or the new text is empty. */
    method OnInput(value: string)
      modifies this`inputValue, keys`commentIsEmpty
      ensures inputValue == value
      ensures keys.commentIsEmpty ==
        if |old(inputValue)| == 0 || |value| == 0 then |value| == 0 else old(keys.commentIsEmpty)
      ensures old(FlagAgrees()) ==> FlagAgrees()
      ensures old(FlagAgrees()) ==>
        (keys.commentIsEmpty != old(keys.commentIsEmpty) <==> (|old(inputValue)| == 0) != (|value| == 0))
    {
      if |inputValue| == 0 || |value| == 0 {
        keys.commentIsEmpty := |value| == 0;
      }
      inputValue := value;
    }

    /** Empties the buffer and sets the key, but only once the text area is mounted. */
    method ClearInput()
      modifies this`inputValue, keys`commentIsEmpty
      ensures inputMounted ==> inputValue == "" && keys.commentIsEmpty
      ensures !inputMounted ==> unchanged(this, keys)
      ensures old(FlagAgrees()) ==> FlagAgrees()
    {
      if inputMounted {
        inputValue := "";
        keys.commentIsEmpty := true;
      }
    }

    /** A click on a reply action: an enabled action sends the current text with its command
        and then clears the input; a disabled one does nothing. */
    method SubmitReply(enabled: bool) returns (sent: Option<string>)
      modifies this`inputValue, keys`commentIsEmpty
      ensures enabled ==> sent == Some(old(inputValue))
      ensures enabled && inputMounted ==> inputValue == "" && keys.commentIsEmpty
      ensures enabled && !inputMounted ==> unchanged(this, keys)
      ensures !enabled ==> sent == None && unchanged(this, keys)
      ensures old(FlagAgrees()) ==> FlagAgrees()
    {
      if !enabled {
        return None;
      }
      sent := Some(inputValue);
      ClearInput();
    }
  }

  /** A client: `display` on a Collapsed thread does not return early, because Collapsed is
      encoded as 0 and so is falsy; the zone is shown and then fitted at the thread's start line. */
  method CollapsedThreadIsDisplayed()
  {
    var keys := new CommentsContextKeys(false);
    var w := new CommentThreadWidget(keys, 10, Some([Comment(1, "a")]), None, Some(Collapsed), 18, 100);
    w.Display(Placement(12, InitialHeightInLines));
    ZoneHeight.ZoneLinesExample();
    assert w.isExpanded && w.zoneVisible && w.collapsibleState == Some(Expanded);
    assert w.glyphLine == Some(12);
    assert w.zoneShows == [Placement(12, 2), Placement(10, 8)];
  }

  /** A client: a press on the glyph line outside the thread decoration hides an expanded
      zone but leaves the thread's collapsible state Expanded. */
  method GutterPressHidesButStaysExpanded()
  {
    var keys := new CommentsContextKeys(false);
    var w := new CommentThreadWidget(keys, 10, Some([Comment(1, "a")]), None, None, 18, 100);
    w.ToggleExpand(10);
    assert w.isExpanded && w.collapsibleState == Some(Expanded) && w.glyphLine == Some(10);
    var e := MouseDown.MouseEvent(Some(10), true, MouseDown.GutterLineDecorations, 40, 18, 10, 0, Some("cgmr"));
    w.OnEditorMouseDown(e);
    assert !w.isExpanded && !w.zoneVisible && w.collapsibleState == Some(Expanded);
  }
}
