# Gwen static label: layout and auto-size

A model of `Label`, the static text control of the Gwen GUI toolkit
(`GwenCS/Gwen/Controls/Label.cs`). A label owns one child text primitive. It
places that text inside its own box according to alignment flags and two
paddings: the control's outer padding and the label's text padding. It can
also resize its box to fit the measured text exactly.

The project has three modules:

- `TextLayout` (`text_layout.dfy`): the pure arithmetic of the layout pass.
  `TextOrigin` gives the text's origin for a box size, the two paddings, a
  measured text size and a set of alignment flags. `TruncHalf` is half of an
  integer truncated toward zero. The program computes its centred coordinates
  as `a + s * 0.5f` in single precision and truncates the result. The
  result is `TruncHalf(2 * a + s)` when each integer converted to single
  precision is at most 2^24 in magnitude and each sum that can carry a half
  is below 2^23 in magnitude. Those sums are `a + s * 0.5f`, and for y also
  the results of subtracting the bottom text padding and then the bottom
  outer padding.
- `Controls` (`label.dfy`): the label's state as one value, `LabelState`.
  One function per operation says what that operation does to the value.
  The class `Controls.Label` holds the same state in fields. Its methods
  update the fields in place, in the order the program does. Each method is
  proved to turn `State()` into the value its function gives.
- `LabelProperties` (`label_properties.dfy`): what the operations promise,
  stated over `LabelState`. It covers each setter's effect and frame, the
  auto-size invariant over any run of text and font changes, the count of
  "text changed" notifications, and how layout treats a box sized to its
  contents.

Text measurement and per-character positions belong to the text primitive
and the renderer. They are the function-valued fields `measure` and
`locate` of a label. Alignment is a set of flags; testing one flag is set
membership.

Two consequences of the code as written are proved rather than assumed:

- Vertical centring is not symmetric with horizontal centring. Line 134
  adds half of (box height minus text height) to the top inset and then
  subtracts the whole bottom inset. So the gap above the text exceeds the gap
  below it by the top inset minus the bottom inset, to within a pixel
  (`OriginYCentred`).
  Horizontal centring leaves gaps equal to within one pixel
  (`OriginXCentred`).
- So a label sized to its contents keeps its text in place under every
  alignment, except vertical centring with unequal top and bottom insets
  (`FittedLayoutIsFixedPoint`). In that case the layout pass moves the text
  by half the inset difference, to within a pixel (`FittedCenterVShift`,
  `FittedCenterVShiftExample`).

Two details of the code are easy to misread:

- Centred coordinates are truncated toward zero, not floored. The two differ
  by one when the halved quantity (`2 * inset + slack` for x) is negative and
  odd (`TruncHalfVersusFloor`).
- The `Alignment` setter (line 19) marks only the label's own layout dirty.
  Only the `TextPadding` setter (line 82) also marks the parent's.

## Model

| member | source | states |
|---|---|---|
| `TextLayout.TruncHalf` | GwenCS/Gwen/Controls/Label.cs:131-134 | the result is half the input truncated toward zero: twice it is within one of the input and never farther from zero |
| `TextLayout.TruncHalfVersusFloor` | GwenCS/Gwen/Controls/Label.cs:131 | truncating differs from flooring exactly on negative odd inputs, by one |
| `TextLayout.TruncHalfOfEven` | GwenCS/Gwen/Controls/Label.cs:131 | halving an even number is exact; an odd one loses its half pixel toward zero |
| `TextLayout.OriginXLeft` | GwenCS/Gwen/Controls/Label.cs:125 | with neither Right nor CenterH, x is text padding left plus padding left |
| `TextLayout.OriginXRight` | GwenCS/Gwen/Controls/Label.cs:128-129 | with Right and not CenterH, the text's right edge is at width minus both right paddings |
| `TextLayout.OriginXCentred` | GwenCS/Gwen/Controls/Label.cs:130-131 | with CenterH, the left and right gaps differ by at most one, are equal for even slack, and the spare pixel goes right when the text fits and the left inset is not negative |
| `TextLayout.OriginYTop` | GwenCS/Gwen/Controls/Label.cs:126 | with neither CenterV nor Bottom, y is text padding top plus padding top |
| `TextLayout.OriginYBottom` | GwenCS/Gwen/Controls/Label.cs:135-136 | with Bottom, the text's bottom edge is at height minus both bottom paddings |
| `TextLayout.OriginYCentred` | GwenCS/Gwen/Controls/Label.cs:133-134 | with CenterV and not Bottom, the top gap minus the bottom gap is the top inset minus the bottom inset, within one and exactly for even slack |
| `TextLayout.CenterHOverridesRight` | GwenCS/Gwen/Controls/Label.cs:128-131 | with CenterH set, adding or removing Right does not change the origin |
| `TextLayout.BottomOverridesCenterV` | GwenCS/Gwen/Controls/Label.cs:133-136 | with Bottom set, adding or removing CenterV does not change the origin |
| `TextLayout.AxesIndependent` | GwenCS/Gwen/Controls/Label.cs:125-136 | x depends only on the Right and CenterH flags, never on the vertical ones |
| `TextLayout.AxesIndependentY` | GwenCS/Gwen/Controls/Label.cs:125-136 | y depends only on the CenterV and Bottom flags, never on the horizontal ones |
| `Controls.Label.constructor` | GwenCS/Gwen/Controls/Label.cs:88-98 | mouse input off, box (0, 0, 100, 10), alignment Left and Top with layout marked dirty, auto-size off, zero text padding |
| `Controls.Label.Invalidate` | GwenCS/Gwen/Controls/Label.cs:19 | only the label's layout-dirty flag is set |
| `Controls.Label.InvalidateParent` | GwenCS/Gwen/Controls/Label.cs:82 | only the parent-layout-dirty flag is set |
| `Controls.Label.Redraw` | GwenCS/Gwen/Controls/Label.cs:37 | only the redraw flag is set |
| `Controls.Label.OnTextChanged` | GwenCS/Gwen/Controls/Label.cs:112-113 | the notification count grows by one and nothing else changes |
| `Controls.Label.SetAlignment` | GwenCS/Gwen/Controls/Label.cs:19 | the new state is the old one with the alignment stored and the layout marked dirty |
| `Controls.Label.SetTextPadding` | GwenCS/Gwen/Controls/Label.cs:82 | the new state is the old one with the text padding stored and both layouts marked dirty |
| `Controls.Label.SetAutoSize` | GwenCS/Gwen/Controls/Label.cs:77 | only the auto-size flag changes |
| `Controls.Label.SetFont` | GwenCS/Gwen/Controls/Label.cs:29-39 | the new state is the font-setting function of the old one: store, refit under auto-size, redraw |
| `Controls.Label.SetText` | GwenCS/Gwen/Controls/Label.cs:146-158 | the new state is the text-setting function of the old one: unchanged text is a no-op; otherwise store, refit under auto-size, redraw, notify if asked |
| `Controls.Label.SetTextProperty` | GwenCS/Gwen/Controls/Label.cs:24 | assigning the `Text` property is `SetText` with events on: the new state is the text-setting function of the old one with notification asked for |
| `Controls.Label.SizeToContents` | GwenCS/Gwen/Controls/Label.cs:160-167 | the new state is the old one with the text at the insets, re-measured, and the box fitted around it |
| `Controls.Label.Layout` | GwenCS/Gwen/Controls/Label.cs:119-139 | testing the flags one by one, each overwriting the last, puts the text exactly at `TextOrigin` (later flag wins) and changes nothing else |
| `Controls.Label.GetCharacterPosition` | GwenCS/Gwen/Controls/Label.cs:174-178 | the result minus the text's origin is the character's local position; the label is not changed |
| `LabelProperties.SizeToContentsFits` | GwenCS/Gwen/Controls/Label.cs:160-167 | afterwards the label fits its contents: text at the top-left insets, box equal to the measured size plus both paddings on each axis, text's far edges on the far insets; only text position, text size and box size change |
| `LabelProperties.SetTextUnchangedIsNoOp` | GwenCS/Gwen/Controls/Label.cs:148-149 | setting the current text leaves the whole state unchanged: no resize, no redraw, no notification |
| `LabelProperties.SetTextChanged` | GwenCS/Gwen/Controls/Label.cs:151-157 | a different text is stored and a redraw requested; one notification fires if and only if events are asked for; under auto-size the label then fits its contents, otherwise box and text position are untouched; no setting changes |
| `LabelProperties.SetTextNotifiesIffChanged` | GwenCS/Gwen/Controls/Label.cs:148-157 | the count grows by exactly one if and only if events are asked for and the text differs, and otherwise stays the same |
| `LabelProperties.SetFontRefits` | GwenCS/Gwen/Controls/Label.cs:32-38 | the font is stored and a redraw requested, with no notification; under auto-size the label then fits its contents, otherwise box and text position are untouched |
| `LabelProperties.AutoSizeKeepsFit` | GwenCS/Gwen/Controls/Label.cs:152-166 | an auto-sized label that fits its contents still fits them, and is still auto-sized, after any run of text and font changes |
| `LabelProperties.AutoSizeFitsAfterChange` | GwenCS/Gwen/Controls/Label.cs:29-36 | from any auto-sized state, a run of edits holding a font edit or a text edit that really changes the text ends with the label fitted to its contents; a run holding neither leaves the state unchanged |
| `LabelProperties.EditsNotify` | GwenCS/Gwen/Controls/Label.cs:146-158 | over any run of text and font changes, the notifications fired are those counted from the texts alone, the last text edit's string is in force, and no setting changes |
| `LabelProperties.AlignmentTakesEffectAtLayout` | GwenCS/Gwen/Controls/Label.cs:19 | a new alignment marks layout dirty and moves nothing until the next layout pass, which places the text by the new alignment |
| `LabelProperties.TextPaddingDoesNotRefit` | GwenCS/Gwen/Controls/Label.cs:82 | new text padding marks both layouts dirty but never resizes the box; a fitted label stays fitted if and only if the left and top paddings and both per-axis sums are unchanged |
| `LabelProperties.LayoutIdempotent` | GwenCS/Gwen/Controls/Label.cs:119-139 | two layout passes give the same state as one |
| `LabelProperties.FittedLayoutIsFixedPoint` | GwenCS/Gwen/Controls/Label.cs:128-136 | in a label that fits its contents, a layout pass changes nothing unless CenterV is set without Bottom and the top and bottom insets differ |
| `LabelProperties.FittedCenterVShift` | GwenCS/Gwen/Controls/Label.cs:133-134 | with CenterV and not Bottom, laying out a fitted label moves its text down by half of top inset minus bottom inset, within a pixel |
| `LabelProperties.FittedCenterVShiftExample` | GwenCS/Gwen/Controls/Label.cs:134 | a fitted label with only a bottom inset of 2, centred vertically, has its text moved from y = 0 to y = -1 |
| `LabelProperties.CharacterPositionAfterLayout` | GwenCS/Gwen/Controls/Label.cs:174-178 | after a layout pass a character's position is its local position moved by the computed text origin |

## Left out

- `Render`, `Dispose` and the `MakeColor*` helpers draw nothing, release resources, or read colours from a skin. None of these has layout logic.
- The `TextColor`, `TextColorOverride` and `Font` getters forward to the text primitive without any logic. The forwarding getters `TextWidth`, `TextHeight`, `TextX`, `TextY`, `TextLength` and `TextRight` (lines 54-68) are not modelled as members. They only read the text primitive. In the model their values are the fields `textSize`, `textPos` and `text`, and the right edge is `textPos.x + textSize.width`. `TextLength` counts UTF-16 code units; the model's strings are sequences of Unicode scalar values, so it could not state that length.
- `base.Layout(skin)` and the skin argument belong to the base control, which is not part of this model.
- `SetBounds`, `SetSize` and `SetPos` are modelled only as the fields they set. Any invalidation or redraw they trigger inside the base control or the text primitive is not modelled. The same goes for the text primitive's own reaction to a new string or font.
- Text measurement and per-character positions are the renderer's. They are the parameters `measure` and `locate`. The text primitive's own `RefreshSize` is the assignment of `measure(text, font)` to the text size.
- `Global.Trunc` is not part of this model. It is taken to truncate toward zero.
- `Controls.Label.constructor`: the base control and text primitive constructors are not part of this model. The font, outer padding and renderer are parameters. The text is taken to start empty, at (0, 0), with size zero; the redraw and parent flags start clear and the count at zero.
- `TextLayout.TextOrigin` uses unbounded integers. It matches the single-precision computation only while each integer converted to single precision (the inset sums, the slack, and at line 134 the bottom text padding and bottom outer padding) is at most 2^24 in magnitude, and each sum that can carry a half (`a + s * 0.5f`, and at line 134 the result of each of the two subtractions that follow) is below 2^23 in magnitude. Beyond those bounds the program's additions round, to even, and its result can differ from the model's.
- 32-bit wrap-around of the C# `int` arithmetic is not modelled. Coordinates are unbounded integers.
- The `Pos` enumeration is not part of this model. Only the six flags the label tests or sets are represented; the other members (`None`, `Fill`, `Center`) are left out.
