# Comment-thread zone widget — a Dafny model

This project models the logic inside the inline comment-thread widget of the IDE's plugin
extension (`packages/plugin-ext/src/main/browser/comments/comment-thread-widget.tsx`). The widget shows a thread of review comments in an editor "zone" (a
region inserted below a source line), with a glyph marker in the gutter. What is modelled:

- **The expand/collapse state machine** of `CommentThreadWidget` (module `ThreadWidget`,
  class `CommentThreadWidget`): `collapse`, `toggleExpand`, `hide`, `display`,
  `update`, `dispose`, deleting the thread, the listener on the thread's collapsible state, and
  the dispatch of `onEditorMouseDown`. The editor's zone widget is reduced to its visibility and
  the log of placements it was shown with (anchor line, height in lines); the glyph marker to its
  line; the comments service to a count of delete requests. The class keeps the invariant
  "while not disposed, the widget is expanded exactly when its zone is visible".
- **The mouse-down guard chain** (module `MouseDown`): a pure decision over the parts of the
  editor's mouse event the handler reads, with `String.indexOf` for the class-name test.
- **The thread label** (module `ThreadLabel`): `indexOf`-based filtering, mentions and
  `join`, proved equal to "first occurrence of each comment object, in order".
- **The zone height** (module `ZoneHeight`): the `Math.ceil`/`Math.round` arithmetic of
  `update` in exact integer form for a positive integer line height.
- **The reply form's buffer** (class `CommentForm`): `onInput`, `clearInput` and a reply
  submission, over the shared `commentIsEmpty` context key (class `CommentsContextKeys`).

## Behaviour of the code as written

- `display` returns early when `collapsibleState && collapsibleState !== Expanded`. The
  host enum `CommentThreadCollapsibleState` encodes Collapsed as 0 and Expanded as 1
  (`packages/plugin-ext/src/common/plugin-api-rpc-model.ts`, which is not part of this model), so
  Collapsed is falsy and the guard holds for no state. The model evaluates the guard with
  JavaScript truthiness (`ThreadTypes.DisplayGuard`) and proves it never holds
  (`ThreadTypes.DisplayGuardNeverHolds`). `Display` states both branches; in effect it always
  places the glyph, marks the thread Expanded and shows the zone. So a gutter press on a collapsed
  thread really expands it (client method `ThreadWidget.CollapsedThreadIsDisplayed`); it does not
  merely set `isExpanded`.
- `display` shows the zone at the requested line, but `update` then re-shows it at the thread's
  range start line with the fitted height. After `toggleExpand(line)` the glyph is at `line`;
  the zone's current placement is anchored at the thread's start line.
- "Expanded exactly when the collapsible state is Expanded" is not an invariant of the code. A
  gutter press outside the thread decoration hides an expanded zone and leaves the state Expanded
  (client method `ThreadWidget.GutterPressHidesButStaysExpanded`). On a present, empty comment
  list, `collapse` itself does not call `hide` before deleting the thread.
- `collapse` deletes only when the comment list is present and empty. `toggleExpand` deletes
  when it is absent or empty.
- The label filter compares comment objects, not author names. Two comment objects by the same
  author are both mentioned.

## Model

| member | source | states |
|---|---|---|
| ThreadTypes.DisplayGuardNeverHolds | packages/plugin-ext/src/main/browser/comments/comment-thread-widget.tsx:136-138 | the early-return guard of display, evaluated with JavaScript truthiness over the enum encoding Collapsed = 0, Expanded = 1, holds for no collapsible state |
| ZoneHeight.HeadHeight | packages/plugin-ext/src/main/browser/comments/comment-thread-widget.tsx:230 | the head height is the ceiling of 1.2 × line height: the least r with 5r ≥ 6·lh |
| ZoneHeight.ArrowHeight | packages/plugin-ext/src/main/browser/comments/comment-thread-widget.tsx:232 | the arrow height is Math.round(lh/3), i.e. the floor of lh/3 + 1/2 |
| ZoneHeight.FrameThickness | packages/plugin-ext/src/main/browser/comments/comment-thread-widget.tsx:233 | the frame thickness is twice Math.round(lh/9), so it is even and lies within the rounding bounds |
| ZoneHeight.CeilDiv | packages/plugin-ext/src/main/browser/comments/comment-thread-widget.tsx:236 | the integer formula satisfies the defining inequalities of Math.ceil(n/d) |
| ZoneHeight.CeilDivUnique | packages/plugin-ext/src/main/browser/comments/comment-thread-widget.tsx:236 | those inequalities determine the result uniquely, so the integer formula equals the ceiling |
| ZoneHeight.ZoneLines | packages/plugin-ext/src/main/browser/comments/comment-thread-widget.tsx:230-236 | the zone's line count is the content height (head + body + arrow + frame + 8) rounded up to whole lines, and at least 1 |
| ZoneHeight.ZoneLinesMonotone | packages/plugin-ext/src/main/browser/comments/comment-thread-widget.tsx:230-236 | a taller comment body never yields fewer lines |
| ZoneHeight.ZoneLinesExample | packages/plugin-ext/src/main/browser/comments/comment-thread-widget.tsx:230-236 | line height 18 and body height 100 give 22 + 100 + 6 + 4 + 8 = 140 pixels and 8 lines |
| ThreadLabel.IndexOf | packages/plugin-ext/src/main/browser/comments/comment-thread-widget.tsx:214 | Array.indexOf yields -1 exactly when the element is absent, else the first index holding it |
| ThreadLabel.DedupeProperties | packages/plugin-ext/src/main/browser/comments/comment-thread-widget.tsx:214-215 | the reference deduplication (first occurrence of each comment object, in order) keeps every comment object of the thread and lists none twice |
| ThreadLabel.FilterIsDedupe | packages/plugin-ext/src/main/browser/comments/comment-thread-widget.tsx:214-215 | the filter "self.indexOf(value) === index" keeps exactly the first occurrence of each comment object, in order |
| ThreadLabel.MentionsAt | packages/plugin-ext/src/main/browser/comments/comment-thread-widget.tsx:215 | each comment maps, position by position, to "@" followed by its author's name |
| ThreadLabel.LabelCases | packages/plugin-ext/src/main/browser/comments/comment-thread-widget.tsx:208-223 | an explicit label, whatever the comments, is returned unchanged; an unlabelled thread with at least one comment is titled "Participants: " followed by the "@name" mentions of its distinct comment objects in order of first occurrence, joined by ", " |
| ThreadLabel.SingleCommentLabel | packages/plugin-ext/src/main/browser/comments/comment-thread-widget.tsx:213-216 | a thread with one comment and no label is titled "Participants: @name" |
| ThreadLabel.LabelSnoc | packages/plugin-ext/src/main/browser/comments/comment-thread-widget.tsx:208-223 | appending a comment object to an unlabelled thread appends ", @name" to the title when the object is new and leaves the title unchanged when the same object is already listed |
| ThreadLabel.SameAuthorExample | packages/plugin-ext/src/main/browser/comments/comment-thread-widget.tsx:213-216 | any three distinct comment objects by authors a, b and a give "Participants: @a, @b, @a" |
| ThreadLabel.SameObjectExample | packages/plugin-ext/src/main/browser/comments/comment-thread-widget.tsx:214-216 | one comment object listed twice is mentioned once: "Participants: @a" |
| ThreadLabel.FallbackExamples | packages/plugin-ext/src/main/browser/comments/comment-thread-widget.tsx:210-219 | an explicit label, even an empty one, is returned unchanged; no comments or an empty list give "Start discussion" |
| MouseDown.FindSubstring | packages/plugin-ext/src/main/browser/comments/comment-thread-widget.tsx:188 | String.indexOf yields -1 exactly when the marker occurs nowhere, else its first occurrence |
| MouseDown.Decide | packages/plugin-ext/src/main/browser/comments/comment-thread-widget.tsx:145-198 | the press is ignored unless a range exists, the left button is down, the target is the line-decorations gutter, the gutter offset is at most 14, an element is present and the glyph is on the pressed line; past the guards it toggles on a comment-thread element, displays a Collapsed thread, and hides otherwise |
| MouseDown.FarPressIgnored | packages/plugin-ext/src/main/browser/comments/comment-thread-widget.tsx:161-166 | a press more than 14 pixels into the decorations column is ignored whatever the other fields |
| MouseDown.MarkerAnywhereToggles | packages/plugin-ext/src/main/browser/comments/comment-thread-widget.tsx:188-191 | a class list containing "comment-thread" anywhere passes the class test |
| ThreadWidget.CommentThreadWidget.constructor | packages/plugin-ext/src/main/browser/comments/comment-thread-widget.tsx:52-86 | a new widget is not expanded, has no glyph line, a hidden zone and no delete request, and sets commentIsEmpty to true |
| ThreadWidget.CommentThreadWidget.Hide | packages/plugin-ext/src/main/browser/comments/comment-thread-widget.tsx:128-132 | hiding hides the zone and clears isExpanded, changing nothing else |
| ThreadWidget.CommentThreadWidget.Dispose | packages/plugin-ext/src/main/browser/comments/comment-thread-widget.tsx:108-113 | disposing marks the widget, its zone and glyph released |
| ThreadWidget.CommentThreadWidget.DeleteCommentThread | packages/plugin-ext/src/main/browser/comments/comment-thread-widget.tsx:103-106 | deleting disposes the widget and sends exactly one delete request |
| ThreadWidget.CommentThreadWidget.Update | packages/plugin-ext/src/main/browser/comments/comment-thread-widget.tsx:225-237 | update does nothing while not expanded; otherwise it renders the thread label as the title and re-shows the zone at the thread's start line with the fitted line count |
| ThreadWidget.CommentThreadWidget.Display | packages/plugin-ext/src/main/browser/comments/comment-thread-widget.tsx:134-143 | display always leaves isExpanded true; when the guard does not return early, the glyph moves to the requested line, the state becomes Expanded, the zone is shown at the requested placement and then refitted by update |
| ThreadWidget.CommentThreadWidget.Collapse | packages/plugin-ext/src/main/browser/comments/comment-thread-widget.tsx:92-101 | collapse always sets the state to Collapsed; a present, empty comment list disposes the widget and sends exactly one delete request without hiding; otherwise the zone is hidden and isExpanded cleared |
| ThreadWidget.CommentThreadWidget.ToggleExpand | packages/plugin-ext/src/main/browser/comments/comment-thread-widget.tsx:115-126 | when expanded: Collapsed, hidden, not expanded, and one delete request exactly when comments are absent or empty; when not expanded: Expanded, glyph at the line, zone shown at the line with height 2 and then refitted |
| ThreadWidget.CommentThreadWidget.OnDidChangeCollapsibleState | packages/plugin-ext/src/main/browser/comments/comment-thread-widget.tsx:64-76 | Expanded while not expanded displays at the range's start line with height 2; Collapsed while expanded hides; every other combination changes nothing |
| ThreadWidget.CommentThreadWidget.OnEditorMouseDown | packages/plugin-ext/src/main/browser/comments/comment-thread-widget.tsx:145-198 | the widget's new state follows the decision of MouseDown.Decide and is given in full for each decision: unchanged when ignored; for a toggle, the complete effect of collapsing (including the delete request and disposal when comments are absent or empty) or of expanding; for a display, the glyph, state, both placements and title; for a hide, only the zone and isExpanded change |
| ThreadWidget.CommentForm.constructor | packages/plugin-ext/src/main/browser/comments/comment-thread-widget.tsx:298-301 | a new reply form holds an empty buffer and its text area is not yet mounted |
| ThreadWidget.CommentForm.MountInput | packages/plugin-ext/src/main/browser/comments/comment-thread-widget.tsx:341-344 | rendering the text area sets its ref |
| ThreadWidget.CommentForm.OnInput | packages/plugin-ext/src/main/browser/comments/comment-thread-widget.tsx:312-323 | the buffer always takes the new text; commentIsEmpty is set to "new text is empty" only when the old or the new text is empty; so a key that agreed with the buffer still agrees, and it flips exactly on empty/non-empty transitions |
| ThreadWidget.CommentForm.ClearInput | packages/plugin-ext/src/main/browser/comments/comment-thread-widget.tsx:303-310 | with a mounted text area the buffer is emptied and commentIsEmpty set; without one nothing changes |
| ThreadWidget.CommentForm.SubmitReply | packages/plugin-ext/src/main/browser/comments/comment-thread-widget.tsx:545-551 | an enabled reply action sends the current text and then clears the input; a disabled one sends nothing and changes nothing |

## Left out

- Rendering (`render`, `ReviewComment`, `CommentBody`, `CommentEditContainer`,
  `CommentsInlineAction`, `CommentActions`, `CommentAction` markup): view templating. Only the
  title a render pass puts in the head is kept.
- DOM effects: focusing the input and placing the caret in `update` and `onInput`,
  `getElementsByClassName`, and the animation-frame hover check. They are browser behaviour.
- Floating point: `Math.ceil` and `Math.round` are replaced by exact integer forms. The line
  height is a positive integer and the body height a natural number read from the host. Pixel
  offsets of mouse events are integers.
- The zone widget, the glyph marker and `BaseWidget`: they are foreign classes. The model keeps
  only the zone's visibility and placements, the glyph's line and a disposed flag. It does not model
  the Lumino hidden flag set by `super.hide()`, whether disposing hides the zone, the idempotence
  of dispose, or the glyph decoration moving with edits.
- Menus, commands and context keys: `getMenu`, `setExpression`, `match`, `isEnabled` and
  `executeCommand` are external registries. A reply action's enablement is one boolean input of
  `SubmitReply`, and the command's payload is reduced to the text it carries.
- Event wiring: subscribing to mouse-down and context-key changes. `OnEditorMouseDown` and
  `Update` model the handlers. Whether assigning the thread's collapsible state inside
  `collapse` or `toggleExpand` notifies the listener synchronously depends on the thread
  implementation, which is not part of this model; the assignments are plain writes here.
- Changes the host makes to the thread (comments, label, range): these are fields that no
  modelled operation writes.
- The `afterColumn` option of zone placements, and `getGlyphPosition`, a getter of the glyph
  line.
