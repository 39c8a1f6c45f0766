/**
 * A static text label: a leaf control that owns one child text primitive,
 * places it inside its own box according to alignment and padding, and can
 * resize its box to fit the text.
 *
 * The label's whole observable state is captured by the value LabelState;
 * the functions over it say what each operation does, and the class Label
 * performs the same operations in place, each method proved to move its
 * fields from one LabelState to the one the matching function gives.
 */
module Controls {
  import opened TextLayout

  datatype Font = Font(face: string, size: int)

  /** A width and a height, in pixels. */
  datatype Extent = Extent(width: int, height: int)

  /**
   * The renderer's measurement of a string in a font. It belongs to the text
   * primitive and the rendering back end; the label only consumes it.
   */
  type Measure = (string, Font) -> Extent

  /** The renderer's local position of the character at an index of a string in a font. */
  type CharLocator = (string, Font, int) -> Point

  /**
   * Everything the label reads or writes. The fields named text, font,
   * textPos, textSize and autoSize live on the child text primitive; origin,
   * size, padding, mouseInputEnabled and the three dirty flags live on the
   * base control; textChanged counts the "text changed" notifications fired.
   */
  datatype LabelState = LabelState(
    text: string,
    font: Font,
    align: set<PosFlag>,
    textPadding: Padding,
    padding: Padding,
    origin: Point,
    size: Extent,
    textPos: Point,
    textSize: Extent,
    autoSize: bool,
    mouseInputEnabled: bool,
    needsRedraw: bool,
    needsLayout: bool,
    parentNeedsLayout: bool,
    textChanged: nat)

  /** Where SizeToContents puts the text: just inside the left and top insets. */
  function FittedOrigin(s: LabelState): Point
  {
    var inset := Inset(s.padding, s.textPadding);
    Point(inset.left, inset.top)
  }

  /** The box that exactly holds a text of the given size plus all four insets. */
  function FittedSize(s: LabelState, text: Extent): Extent
  {
    var inset := Inset(s.padding, s.textPadding);
    Extent(text.width + inset.left + inset.right, text.height + inset.top + inset.bottom)
  }

  /** The state SizeToContents leaves behind: measured text, placed at the insets, box fitted around it. */
  ghost predicate FitsContents(s: LabelState, measure: Measure)
  {
    && s.textSize == measure(s.text, s.font)
    && s.textPos == FittedOrigin(s)
    && s.size == FittedSize(s, s.textSize)
  }

  /** The layout pass: the text moves to the origin its alignment asks for; nothing else changes. */
  function LayoutOf(s: LabelState): LabelState
  {
    s.(textPos := TextOrigin(s.size.width, s.size.height, s.padding, s.textPadding,
                             s.textSize.width, s.textSize.height, s.align))
  }

  /** Place the text at the insets, re-measure it, and resize the box to fit. */
  function SizedToContents(s: LabelState, measure: Measure): LabelState
  {
    var m := measure(s.text, s.font);
    s.(textPos := FittedOrigin(s), textSize := m, size := FittedSize(s, m))
  }

  /** Setting the text: nothing at all if it is unchanged; otherwise store, refit under auto-size, redraw, notify. */
  function WithText(s: LabelState, str: string, doEvents: bool, measure: Measure): LabelState
  {
    if s.text == str then s
    else
      var stored := s.(text := str);
      var sized := if stored.autoSize then SizedToContents(stored, measure) else stored;
      sized.(needsRedraw := true,
             textChanged := if doEvents then sized.textChanged + 1 else sized.textChanged)
  }

  /** Setting the font: always store, refit under auto-size, redraw; no equality check, no notification. */
  function WithFont(s: LabelState, font: Font, measure: Measure): LabelState
  {
    var stored := s.(font := font);
    var sized := if stored.autoSize then SizedToContents(stored, measure) else stored;
    sized.(needsRedraw := true)
  }

  /** Setting the alignment: store it and mark the label's own layout dirty. */
  function WithAlignment(s: LabelState, align: set<PosFlag>): LabelState
  {
    s.(align := align, needsLayout := true)
  }

  /** Setting the text padding: store it and mark both this layout and the parent's dirty. */
  function WithTextPadding(s: LabelState, textPadding: Padding): LabelState
  {
    s.(textPadding := textPadding, needsLayout := true, parentNeedsLayout := true)
  }

  /** Setting the auto-size flag: forwarded to the text primitive, with no other effect here. */
  function WithAutoSize(s: LabelState, autoSize: bool): LabelState
  {
    s.(autoSize := autoSize)
  }

  /** A character's position in label coordinates: its position in the text, moved by the text's origin. */
  function CharacterPositionOf(s: LabelState, locate: CharLocator, index: int): Point
  {
    var p := locate(s.text, s.font, index);
    Point(p.x + s.textPos.x, p.y + s.textPos.y)
  }

  /**
   * The label as the program holds it: one object whose fields the setters,
   * the layout pass and SizeToContents update in place.
   */
  class Label {
    const measure: Measure
    const locate: CharLocator

    var text: string
    var font: Font
    var align: set<PosFlag>
    var textPadding: Padding
    var padding: Padding
    var origin: Point
    var size: Extent
    var textPos: Point
    var textSize: Extent
    var autoSize: bool
    var mouseInputEnabled: bool
    var needsRedraw: bool
    var needsLayout: bool
    var parentNeedsLayout: bool
    var textChanged: nat

    /** The fields as one value. */
    function State(): LabelState
      reads this
    {
      LabelState(text, font, align, textPadding, padding, origin, size, textPos, textSize,
                 autoSize, mouseInputEnabled, needsRedraw, needsLayout, parentNeedsLayout, textChanged)
    }

    /**
     * A new label: mouse input off, box at (0, 0) sized 100 by 10, aligned
     * Left|Top (which marks the layout dirty), auto-size off, no text padding.
     * The font, the outer padding and the renderer come from the base control
     * and the text primitive, whose constructors are not part of this model;
     * the text primitive is taken to start empty, at (0, 0), with no size.
     */
    constructor (font: Font, padding: Padding, measure: Measure, locate: CharLocator)
      ensures State() == LabelState("", font, {Left, Top}, ZERO_PADDING, padding,
                                    Point(0, 0), Extent(100, 10), Point(0, 0), Extent(0, 0),
                                    false, false, false, true, false, 0)
      ensures this.measure == measure && this.locate == locate
    {
      this.measure := measure;
      this.locate := locate;
      text := "";
      this.font := font;
      textPos := Point(0, 0);
      textSize := Extent(0, 0);
      this.padding := padding;
      textPadding := ZERO_PADDING;
      needsRedraw, needsLayout, parentNeedsLayout := false, false, false;
      textChanged := 0;
      new;
      mouseInputEnabled := false;
      origin, size := Point(0, 0), Extent(100, 10);
      SetAlignment({Left, Top});
      autoSize := false;
    }

    /** The base control's Invalidate: this control's layout is dirty. */
    method Invalidate()
      modifies this
      ensures State() == old(State()).(needsLayout := true)
    {
      needsLayout := true;
    }

    /** The base control's InvalidateParent: the parent's layout is dirty. */
    method InvalidateParent()
      modifies this
      ensures State() == old(State()).(parentNeedsLayout := true)
    {
      parentNeedsLayout := true;
    }

    /** The base control's Redraw: this control must be drawn again. */
    method Redraw()
      modifies this
      ensures State() == old(State()).(needsRedraw := true)
    {
      needsRedraw := true;
    }

    /** The "text changed" hook; firing it is what the counter records. */
    method OnTextChanged()
      modifies this
      ensures State() == old(State()).(textChanged := old(textChanged) + 1)
    {
      textChanged := textChanged + 1;
    }

    method SetAlignment(align: set<PosFlag>)
      modifies this
      ensures State() == WithAlignment(old(State()), align)
    {
      this.align := align;
      Invalidate();
    }

    method SetTextPadding(textPadding: Padding)
      modifies this
      ensures State() == WithTextPadding(old(State()), textPadding)
    {
      this.textPadding := textPadding;
      Invalidate();
      InvalidateParent();
    }

    method SetAutoSize(autoSize: bool)
      modifies this
      ensures State() == WithAutoSize(old(State()), autoSize)
    {
      this.autoSize := autoSize;
    }

    method SetFont(font: Font)
      modifies this
      ensures State() == WithFont(old(State()), font, measure)
    {
      this.font := font;
      if autoSize {
        SizeToContents();
      }
      Redraw();
    }

    method SetText(str: string, doEvents: bool)
      modifies this
      ensures State() == WithText(old(State()), str, doEvents, measure)
    {
      if text == str {
        return;
      }
      text := str;
      if autoSize {
        SizeToContents();
      }
      Redraw();
      if doEvents {
        OnTextChanged();
      }
    }

    /** Assigning the Text property: SetText with the "text changed" notification asked for. */
    method SetTextProperty(str: string)
      modifies this
      ensures State() == WithText(old(State()), str, true, measure)
    {
      SetText(str, true);
    }

    method SizeToContents()
      modifies this
      ensures State() == SizedToContents(old(State()), measure)
    {
      textPos := Point(textPadding.left + padding.left, textPadding.top + padding.top);
      textSize := measure(text, font);
      size := Extent(textSize.width + padding.left + padding.right + textPadding.left + textPadding.right,
                     textSize.height + padding.top + padding.bottom + textPadding.top + textPadding.bottom);
    }

    /**
     * The layout pass, flag by flag in the order the program tests them,
     * each later flag overwriting the coordinate an earlier one set.
     */
    method Layout()
      modifies this
      ensures State() == LayoutOf(old(State()))
    {
      var x := textPadding.left + padding.left;
      var y := textPadding.top + padding.top;
      if Right in align {
        x := size.width - textSize.width - textPadding.right - padding.right;
      }
      if CenterH in align {
        x := TruncHalf(2 * (textPadding.left + padding.left)
                       + (size.width - textSize.width - textPadding.left - padding.left
                          - textPadding.right - padding.right));
      }
      if CenterV in align {
        y := TruncHalf(2 * (textPadding.top + padding.top) + (size.height - textSize.height)
                       - 2 * (textPadding.bottom + padding.bottom));
      }
      if Bottom in align {
        y := size.height - textSize.height - textPadding.bottom - padding.bottom;
      }
      textPos := Point(x, y);
    }

    /** A character's position in the label's coordinates; reads the label and changes nothing. */
    method GetCharacterPosition(index: int) returns (p: Point)
      ensures p.x - textPos.x == locate(text, font, index).x
      ensures p.y - textPos.y == locate(text, font, index).y
      ensures p == CharacterPositionOf(State(), locate, index)
    {
      var local := locate(text, font, index);
      p := Point(local.x + textPos.x, local.y + textPos.y);
    }

  }
}
