/**
 * Where a label puts its text inside its box.
 *
 * A label's box has a width and a height; between the box edge and the text
 * sit two insets added together: the control's own outer padding and the
 * label's text padding. Alignment flags choose, per axis, whether the text
 * hugs the near inset, the far inset, or is centred. The flags are tested in
 * a fixed order (Right, CenterH, CenterV, Bottom) and each one that is set
 * overwrites the coordinate computed before it.
 */
module TextLayout {

  datatype Point = Point(x: int, y: int)

  /** Four-sided spacing, in pixels. */
  datatype Padding = Padding(left: int, top: int, right: int, bottom: int)

  const ZERO_PADDING := Padding(0, 0, 0, 0)

  /** The alignment flags the label tests; an alignment is the set of those that are on. */
  datatype PosFlag = Left | Right | Top | Bottom | CenterV | CenterH

  /** The distance between the box edge and the text on each side: outer padding plus text padding. */
  function Inset(padding: Padding, textPadding: Padding): Padding
  {
    Padding(textPadding.left + padding.left, textPadding.top + padding.top,
            textPadding.right + padding.right, textPadding.bottom + padding.bottom)
  }

  /**
   * Half of n, truncated toward zero. The centred coordinates are computed
   * in single precision as `a + s * 0.5` and then truncated. Each integer
   * converted to single precision is exact up to 2^24 in magnitude, but a
   * sum that carries a half is exact only below 2^23, where the spacing of
   * single precision is still one half. Within those bounds the result is
   * TruncHalf(2 * a + s); beyond them the additions round.
   */
  function TruncHalf(n: int): (r: int)
    ensures -1 <= n - 2 * r <= 1
    ensures 0 <= n ==> 0 <= 2 * r <= n
    ensures n <= 0 ==> n <= 2 * r <= 0
  {
    if n >= 0 then n / 2 else -((-n) / 2)
  }

  /**
   * The child text's origin for a box of the given size, insets built from
   * the given paddings, a text of the given measured size and an alignment.
   * Written with the precedence made explicit: a later flag in the source's
   * order wins, so CenterH beats Right and Bottom beats CenterV.
   */
  function TextOrigin(width: int, height: int, padding: Padding, textPadding: Padding,
                      textWidth: int, textHeight: int, align: set<PosFlag>): Point
  {
    var inset := Inset(padding, textPadding);
    Point(
      if CenterH in align then TruncHalf(2 * inset.left + (width - textWidth - inset.left - inset.right))
      else if Right in align then width - textWidth - inset.right
      else inset.left,
      if Bottom in align then height - textHeight - inset.bottom
      else if CenterV in align then TruncHalf(2 * inset.top + (height - textHeight) - 2 * inset.bottom)
      else inset.top)
  }

  /** TruncHalf against floor division: they differ exactly on negative odd numbers, by one. */
  lemma TruncHalfVersusFloor(n: int)
    ensures TruncHalf(n) == if n < 0 && n % 2 == 1 then n / 2 + 1 else n / 2
  {
  }

  /** TruncHalf undoes doubling, and it never moves a value away from zero. */
  lemma TruncHalfOfEven(k: int)
    ensures TruncHalf(2 * k) == k
    ensures TruncHalf(2 * k + 1) == (if k >= 0 then k else k + 1)
  {
  }

  /** Neither Right nor CenterH: the text starts right after the left inset. */
  lemma OriginXLeft(width: int, height: int, padding: Padding, textPadding: Padding,
                    textWidth: int, textHeight: int, align: set<PosFlag>)
    requires Right !in align && CenterH !in align
    ensures TextOrigin(width, height, padding, textPadding, textWidth, textHeight, align).x
            == textPadding.left + padding.left
  {
  }

  /** Right without CenterH: the text's right edge touches the right inset. */
  lemma OriginXRight(width: int, height: int, padding: Padding, textPadding: Padding,
                     textWidth: int, textHeight: int, align: set<PosFlag>)
    requires Right in align && CenterH !in align
    ensures var x := TextOrigin(width, height, padding, textPadding, textWidth, textHeight, align).x;
            x + textWidth == width - textPadding.right - padding.right
  {
  }

  /**
   * CenterH (with or without Right): the gaps left and right of the text
   * differ by at most one pixel, and are equal when the horizontal slack is
   * even. When the text fits, the one odd pixel goes to the right-hand gap.
   */
  lemma OriginXCentred(width: int, height: int, padding: Padding, textPadding: Padding,
                       textWidth: int, textHeight: int, align: set<PosFlag>)
    requires CenterH in align
    ensures var inset := Inset(padding, textPadding);
            var x := TextOrigin(width, height, padding, textPadding, textWidth, textHeight, align).x;
            var leftGap := x - inset.left;
            var rightGap := (width - inset.right) - (x + textWidth);
            && -1 <= leftGap - rightGap <= 1
            && ((leftGap + rightGap) % 2 == 0 ==> leftGap == rightGap)
            && (leftGap + rightGap >= 0 && inset.left >= 0 ==> leftGap <= rightGap)
  {
  }

  /** Neither CenterV nor Bottom: the text starts right below the top inset. */
  lemma OriginYTop(width: int, height: int, padding: Padding, textPadding: Padding,
                   textWidth: int, textHeight: int, align: set<PosFlag>)
    requires CenterV !in align && Bottom !in align
    ensures TextOrigin(width, height, padding, textPadding, textWidth, textHeight, align).y
            == textPadding.top + padding.top
  {
  }

  /** Bottom (with or without CenterV): the text's bottom edge touches the bottom inset. */
  lemma OriginYBottom(width: int, height: int, padding: Padding, textPadding: Padding,
                      textWidth: int, textHeight: int, align: set<PosFlag>)
    requires Bottom in align
    ensures var y := TextOrigin(width, height, padding, textPadding, textWidth, textHeight, align).y;
            y + textHeight == height - textPadding.bottom - padding.bottom
  {
  }

  /**
   * CenterV without Bottom: the text sits half the box-minus-text height
   * below the top inset and then the whole bottom inset higher. So the gap
   * above the text exceeds the gap below it by the top inset minus the
   * bottom inset (within a pixel): the text is centred between the insets
   * only when those two insets are equal.
   */
  lemma OriginYCentred(width: int, height: int, padding: Padding, textPadding: Padding,
                       textWidth: int, textHeight: int, align: set<PosFlag>)
    requires CenterV in align && Bottom !in align
    ensures var inset := Inset(padding, textPadding);
            var y := TextOrigin(width, height, padding, textPadding, textWidth, textHeight, align).y;
            var topGap := y - inset.top;
            var bottomGap := (height - inset.bottom) - (y + textHeight);
            && -1 <= (topGap - bottomGap) - (inset.top - inset.bottom) <= 1
            && ((height - textHeight) % 2 == 0 ==> topGap - bottomGap == inset.top - inset.bottom)
  {
  }

  /** Setting Right beside CenterH changes nothing: CenterH is applied later and wins. */
  lemma CenterHOverridesRight(width: int, height: int, padding: Padding, textPadding: Padding,
                              textWidth: int, textHeight: int, align: set<PosFlag>)
    requires CenterH in align
    ensures TextOrigin(width, height, padding, textPadding, textWidth, textHeight, align + {Right})
         == TextOrigin(width, height, padding, textPadding, textWidth, textHeight, align - {Right})
  {
  }

  /** Setting CenterV beside Bottom changes nothing: Bottom is applied later and wins. */
  lemma BottomOverridesCenterV(width: int, height: int, padding: Padding, textPadding: Padding,
                               textWidth: int, textHeight: int, align: set<PosFlag>)
    requires Bottom in align
    ensures TextOrigin(width, height, padding, textPadding, textWidth, textHeight, align + {CenterV})
         == TextOrigin(width, height, padding, textPadding, textWidth, textHeight, align - {CenterV})
  {
  }

  /** The vertical flags never move x. */
  lemma AxesIndependent(width: int, height: int, padding: Padding, textPadding: Padding,
                        textWidth: int, textHeight: int, a: set<PosFlag>, b: set<PosFlag>)
    requires (Right in a <==> Right in b) && (CenterH in a <==> CenterH in b)
    ensures TextOrigin(width, height, padding, textPadding, textWidth, textHeight, a).x
         == TextOrigin(width, height, padding, textPadding, textWidth, textHeight, b).x
  {
  }

  /** The horizontal flags never move y. */
  lemma AxesIndependentY(width: int, height: int, padding: Padding, textPadding: Padding,
                         textWidth: int, textHeight: int, a: set<PosFlag>, b: set<PosFlag>)
    requires (CenterV in a <==> CenterV in b) && (Bottom in a <==> Bottom in b)
    ensures TextOrigin(width, height, padding, textPadding, textWidth, textHeight, a).y
         == TextOrigin(width, height, padding, textPadding, textWidth, textHeight, b).y
  {
  }
}
