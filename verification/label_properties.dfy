/**
 * What the label's operations promise, stated over LabelState: what each
 * setter changes and leaves alone, that auto-size keeps the box fitted to
 * the text across any run of text and font changes, how many "text changed"
 * notifications such a run fires, and how the layout pass relates to a
 * box that was sized to its contents.
 */
module LabelProperties {
  import opened TextLayout
  import opened Controls

  /** The two kinds of change that make an auto-sized label refit itself. */
  datatype Edit = TextEdit(str: string, doEvents: bool) | FontEdit(font: Font)

  function ApplyEdit(s: LabelState, e: Edit, measure: Measure): LabelState
  {
    match e
    case TextEdit(str, doEvents) => WithText(s, str, doEvents, measure)
    case FontEdit(font) => WithFont(s, font, measure)
  }

  /** The state after a run of edits, applied left to right. */
  function ApplyEdits(s: LabelState, edits: seq<Edit>, measure: Measure): LabelState
    decreases |edits|
  {
    if edits == [] then s else ApplyEdits(ApplyEdit(s, edits[0], measure), edits[1..], measure)
  }

  /**
   * How many notifications a run of edits ought to fire, counted from the
   * text alone: one for each text edit that asks for events and whose string
   * differs from the text in force just before it.
   */
  function Notifications(text: string, edits: seq<Edit>): nat
    decreases |edits|
  {
    if edits == [] then 0
    else match edits[0]
      case TextEdit(str, doEvents) =>
        (if doEvents && str != text then 1 else 0) + Notifications(str, edits[1..])
      case FontEdit(_) => Notifications(text, edits[1..])
  }

  /** The text a run of edits leaves in force: that of its last text edit, if any. */
  function LastText(text: string, edits: seq<Edit>): string
    decreases |edits|
  {
    if edits == [] then text
    else LastText(if edits[0].TextEdit? then edits[0].str else text, edits[1..])
  }

  /**
   * Whether a run of edits, starting from the given text, holds a change
   * that makes an auto-sized label refit: any font edit, or a text edit whose
   * string differs from the text in force just before it.
   */
  predicate Refits(text: string, edits: seq<Edit>)
    decreases |edits|
  {
    && edits != []
    && match edits[0]
       case FontEdit(_) => true
       case TextEdit(str, _) => str != text || Refits(text, edits[1..])
  }

  /** The part of the state no text, font or size operation touches. */
  predicate SameSettings(s: LabelState, t: LabelState)
  {
    && s.align == t.align
    && s.textPadding == t.textPadding
    && s.padding == t.padding
    && s.origin == t.origin
    && s.autoSize == t.autoSize
    && s.mouseInputEnabled == t.mouseInputEnabled
    && s.needsLayout == t.needsLayout
    && s.parentNeedsLayout == t.parentNeedsLayout
  }

  /**
   * SizeToContents leaves the label fitted: the text measured and placed at
   * the top-left insets, the box its measured size plus both insets on each
   * axis, so the text's right edge meets the right inset. Only the text's
   * position and size and the box size change.
   */
  lemma SizeToContentsFits(s: LabelState, measure: Measure)
    ensures var r := SizedToContents(s, measure);
            var inset := Inset(s.padding, s.textPadding);
            var m := measure(s.text, s.font);
            && FitsContents(r, measure)
            && r.textPos == Point(s.textPadding.left + s.padding.left, s.textPadding.top + s.padding.top)
            && r.size.width == m.width + s.padding.left + s.padding.right + s.textPadding.left + s.textPadding.right
            && r.size.height == m.height + s.padding.top + s.padding.bottom + s.textPadding.top + s.textPadding.bottom
            && r.textPos.x + r.textSize.width == r.size.width - inset.right
            && r.textPos.y + r.textSize.height == r.size.height - inset.bottom
            && r.(textPos := s.textPos, textSize := s.textSize, size := s.size) == s
  {
  }

  /** Setting the text it already has changes nothing: no resize, no redraw, no notification. */
  lemma SetTextUnchangedIsNoOp(s: LabelState, str: string, doEvents: bool, measure: Measure)
    requires s.text == str
    ensures WithText(s, str, doEvents, measure) == s
  {
  }

  /**
   * Setting a different text stores it and asks for a redraw; it fires one
   * notification exactly when events are asked for; under auto-size it leaves
   * the label fitted to the new text, and otherwise the box and the text's
   * position are untouched. No setting changes.
   */
  lemma SetTextChanged(s: LabelState, str: string, doEvents: bool, measure: Measure)
    requires s.text != str
    ensures var r := WithText(s, str, doEvents, measure);
            && r.text == str
            && r.font == s.font
            && r.needsRedraw
            && (r.textChanged == s.textChanged + 1 <==> doEvents)
            && (r.textChanged == s.textChanged <==> !doEvents)
            && SameSettings(s, r)
            && (s.autoSize ==> FitsContents(r, measure))
            && (!s.autoSize ==> r.size == s.size && r.textPos == s.textPos && r.textSize == s.textSize)
  {
  }

  /** A notification fires exactly when the text really changes and events are asked for. */
  lemma SetTextNotifiesIffChanged(s: LabelState, str: string, doEvents: bool, measure: Measure)
    ensures var r := WithText(s, str, doEvents, measure);
            && (r.textChanged == s.textChanged + 1 <==> (doEvents && s.text != str))
            && (r.textChanged == s.textChanged <==> !(doEvents && s.text != str))
  {
  }

  /**
   * Setting the font always stores it and asks for a redraw, never notifies,
   * and under auto-size leaves the label fitted to the text in the new font;
   * without auto-size the box and the text's position are untouched.
   */
  lemma SetFontRefits(s: LabelState, font: Font, measure: Measure)
    ensures var r := WithFont(s, font, measure);
            && r.font == font
            && r.text == s.text
            && r.needsRedraw
            && r.textChanged == s.textChanged
            && SameSettings(s, r)
            && (s.autoSize ==> FitsContents(r, measure))
            && (!s.autoSize ==> r.size == s.size && r.textPos == s.textPos && r.textSize == s.textSize)
  {
  }

  /**
   * An auto-sized label that fits its contents still fits them after any run
   * of text and font changes, and is still auto-sized.
   */
  lemma {:induction false} AutoSizeKeepsFit(s: LabelState, edits: seq<Edit>, measure: Measure)
    requires s.autoSize && FitsContents(s, measure)
    ensures var r := ApplyEdits(s, edits, measure);
            r.autoSize && FitsContents(r, measure)
    decreases |edits|
  {
    if edits != [] {
      var t := ApplyEdit(s, edits[0], measure);
      match edits[0] {
        case TextEdit(str, doEvents) =>
          if s.text != str {
            SetTextChanged(s, str, doEvents, measure);
          }
        case FontEdit(font) =>
          SetFontRefits(s, font, measure);
      }
      AutoSizeKeepsFit(t, edits[1..], measure);
    }
  }

  /**
   * From any auto-sized state, a run of edits that holds a real change ends
   * with the label fitted to its contents; edits that change nothing leave
   * it as it was.
   */
  lemma {:induction false} AutoSizeFitsAfterChange(s: LabelState, edits: seq<Edit>, measure: Measure)
    requires s.autoSize
    ensures var r := ApplyEdits(s, edits, measure);
            && r.autoSize
            && (Refits(s.text, edits) || FitsContents(s, measure) ==> FitsContents(r, measure))
            && (!Refits(s.text, edits) ==> r == s)
    decreases |edits|
  {
    if edits != [] {
      var t := ApplyEdit(s, edits[0], measure);
      match edits[0] {
        case TextEdit(str, doEvents) =>
          if s.text != str {
            SetTextChanged(s, str, doEvents, measure);
            AutoSizeKeepsFit(t, edits[1..], measure);
          } else {
            AutoSizeFitsAfterChange(t, edits[1..], measure);
          }
        case FontEdit(font) =>
          SetFontRefits(s, font, measure);
          AutoSizeKeepsFit(t, edits[1..], measure);
      }
    }
  }

  /**
   * Over any run of text and font changes, the notifications fired are
   * exactly those counted from the texts alone, and the text left in force
   * is that of the last text edit; the settings never change.
   */
  lemma {:induction false} EditsNotify(s: LabelState, edits: seq<Edit>, measure: Measure)
    ensures var r := ApplyEdits(s, edits, measure);
            && r.textChanged == s.textChanged + Notifications(s.text, edits)
            && r.text == LastText(s.text, edits)
            && SameSettings(s, r)
    decreases |edits|
  {
    if edits != [] {
      var t := ApplyEdit(s, edits[0], measure);
      match edits[0] {
        case TextEdit(str, doEvents) =>
          SetTextNotifiesIffChanged(s, str, doEvents, measure);
          if s.text != str {
            SetTextChanged(s, str, doEvents, measure);
          }
        case FontEdit(font) =>
          SetFontRefits(s, font, measure);
      }
      EditsNotify(t, edits[1..], measure);
    }
  }

  /** Setting the alignment moves nothing until the next layout pass, which then obeys it. */
  lemma AlignmentTakesEffectAtLayout(s: LabelState, align: set<PosFlag>)
    ensures var r := WithAlignment(s, align);
            && r.needsLayout
            && r.textPos == s.textPos && r.size == s.size
            && LayoutOf(r).textPos == TextOrigin(s.size.width, s.size.height, s.padding, s.textPadding,
                                                 s.textSize.width, s.textSize.height, align)
  {
  }

  /**
   * Setting the text padding marks this layout and the parent's dirty but
   * does not refit the box, even under auto-size: a fitted label stays fitted
   * only if the insets' sums are unchanged.
   */
  lemma TextPaddingDoesNotRefit(s: LabelState, textPadding: Padding, measure: Measure)
    requires FitsContents(s, measure)
    ensures var r := WithTextPadding(s, textPadding);
            && r.needsLayout && r.parentNeedsLayout
            && r.size == s.size && r.textPos == s.textPos
            && (FitsContents(r, measure) <==>
                  textPadding.left == s.textPadding.left && textPadding.top == s.textPadding.top
                  && textPadding.left + textPadding.right == s.textPadding.left + s.textPadding.right
                  && textPadding.top + textPadding.bottom == s.textPadding.top + s.textPadding.bottom)
  {
  }

  /** Laying out twice is the same as laying out once. */
  lemma LayoutIdempotent(s: LabelState)
    ensures LayoutOf(LayoutOf(s)) == LayoutOf(s)
  {
  }

  /**
   * Laying out a label sized to its contents moves nothing, whatever its
   * alignment, except for vertical centring when the top and bottom insets
   * differ.
   */
  lemma FittedLayoutIsFixedPoint(s: LabelState, measure: Measure)
    requires FitsContents(s, measure)
    requires CenterV !in s.align || Bottom in s.align
             || s.textPadding.top + s.padding.top == s.textPadding.bottom + s.padding.bottom
    ensures LayoutOf(s) == s
  {
  }

  /**
   * With CenterV (and not Bottom), laying out a fitted label shifts its text
   * down by half of the top inset minus the bottom inset, within a pixel.
   */
  lemma FittedCenterVShift(s: LabelState, measure: Measure)
    requires FitsContents(s, measure)
    requires CenterV in s.align && Bottom !in s.align
    ensures var inset := Inset(s.padding, s.textPadding);
            var shift := LayoutOf(s).textPos.y - s.textPos.y;
            -1 <= 2 * shift - (inset.top - inset.bottom) <= 1
  {
  }

  /** A concrete case: no top inset and a bottom inset of 2 lift the text one pixel above the box. */
  lemma FittedCenterVShiftExample(s: LabelState, measure: Measure)
    requires FitsContents(s, measure)
    requires s.align == {CenterV}
    requires s.padding == ZERO_PADDING && s.textPadding == Padding(0, 0, 0, 2)
    ensures s.textPos.y == 0 && LayoutOf(s).textPos.y == -1
  {
  }

  /** After a layout pass, a character sits at its position in the text moved by the computed origin. */
  lemma CharacterPositionAfterLayout(s: LabelState, locate: CharLocator, index: int)
    ensures var o := TextOrigin(s.size.width, s.size.height, s.padding, s.textPadding,
                                s.textSize.width, s.textSize.height, s.align);
            var local := locate(s.text, s.font, index);
            CharacterPositionOf(LayoutOf(s), locate, index) == Point(local.x + o.x, local.y + o.y)
  {
  }
}
