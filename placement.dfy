/**
 * The rectangle recipe of `ContactListItem.onLayout`: the icon at the padding
 * plus its own margins with the styled avatar size, the title to the right of
 * the icon at its own top margin, and the subtitle directly below the title.
 * The container's own bounds play no part in the recipe.
 */
module Placement {
  import opened KotlinInt
  import opened Params
  import opened Measure

  /** A child's frame in the container's coordinates, as `View.layout` takes it. */
  datatype Rect = Rect(left: Int, top: Int, right: Int, bottom: Int)
  {
    function Width(): int { right - left }
    function Height(): int { bottom - top }

    /**
     * Inside a container of the given size, clear of its start, end and
     * bottom padding, and at or below its top edge (not necessarily clear of
     * the top padding: the title's top ignores it).
     */
    predicate WithinPadded(width: int, height: int, padding: Padding) {
      padding.start <= left && right <= width - padding.end && 0 <= top && bottom <= height - padding.bottom
    }
  }

  /** `iconStartX`: the start padding plus the icon's start margin. */
  function IconStartX(padding: Padding, icon: MarginLayoutParams): Int {
    Plus(padding.start, icon.marginStart)
  }

  /** `iconStartY`: the top padding plus the icon's top margin. */
  function IconStartY(padding: Padding, icon: MarginLayoutParams): Int {
    Plus(padding.top, icon.topMargin)
  }

  /** The icon's frame: at its start corner, with the styled avatar size. */
  function IconFrame(padding: Padding, style: Style, icon: MarginLayoutParams): Rect {
    var x := IconStartX(padding, icon);
    var y := IconStartY(padding, icon);
    Rect(x, y, Plus(x, style.photoViewWidth), Plus(y, style.photoViewHeight))
  }

  /**
   * The left edge shared by the text rows: past the icon and its end margin,
   * then the row's own start margin.
   */
  function TextStartX(padding: Padding, style: Style, icon: MarginLayoutParams,
                      text: MarginLayoutParams): Int
  {
    Plus(Plus(Plus(IconStartX(padding, icon), style.photoViewWidth), icon.marginEnd), text.marginStart)
  }

  /** The title's frame: its measured size, with its top at its own top margin. */
  function TitleFrame(padding: Padding, style: Style, icon: MarginLayoutParams,
                      title: MarginLayoutParams, titleSize: Size): Rect
  {
    var x := TextStartX(padding, style, icon, title);
    var y := title.topMargin;
    Rect(x, y, Plus(x, titleSize.width), Plus(y, titleSize.height))
  }

  /** The subtitle's frame: its measured size, below the title's measured height. */
  function SubtitleFrame(padding: Padding, style: Style, icon: MarginLayoutParams,
                         title: MarginLayoutParams, titleSize: Size,
                         subtitle: MarginLayoutParams, subtitleSize: Size): Rect
  {
    var x := TextStartX(padding, style, icon, subtitle);
    var y := Plus(Plus(title.topMargin, titleSize.height), subtitle.topMargin);
    Rect(x, y, Plus(x, subtitleSize.width), Plus(y, subtitleSize.height))
  }

  /**
   * The icon sits at the padding plus its own margins and is exactly the
   * styled avatar size; nothing about the text rows enters its frame.
   */
  lemma IconFrameFromPaddingAndStyle(padding: Padding, style: Style, icon: MarginLayoutParams)
    requires padding.Moderate() && style.Moderate() && ModerateMargins(icon)
    ensures IconFrame(padding, style, icon).left == padding.start + icon.marginStart
    ensures IconFrame(padding, style, icon).top == padding.top + icon.topMargin
    ensures IconFrame(padding, style, icon).Width() == style.photoViewWidth
    ensures IconFrame(padding, style, icon).Height() == style.photoViewHeight
  {
  }

  /**
   * Both text rows start at the icon's right edge plus the icon's end margin
   * plus their own start margin; with non-negative margins neither overlaps
   * the icon horizontally.
   */
  lemma TextRowsRightOfIcon(padding: Padding, style: Style, icon: MarginLayoutParams,
                            title: MarginLayoutParams, titleSize: Size,
                            subtitle: MarginLayoutParams, subtitleSize: Size)
    requires padding.Moderate() && style.Moderate()
    requires ModerateMargins(icon) && ModerateMargins(title) && ModerateMargins(subtitle)
    ensures var iconRight := IconFrame(padding, style, icon).right;
            && TitleFrame(padding, style, icon, title, titleSize).left
               == iconRight + icon.marginEnd + title.marginStart
            && SubtitleFrame(padding, style, icon, title, titleSize, subtitle, subtitleSize).left
               == iconRight + icon.marginEnd + subtitle.marginStart
    ensures icon.marginEnd >= 0 && title.marginStart >= 0 ==>
      TitleFrame(padding, style, icon, title, titleSize).left >= IconFrame(padding, style, icon).right
    ensures icon.marginEnd >= 0 && subtitle.marginStart >= 0 ==>
      SubtitleFrame(padding, style, icon, title, titleSize, subtitle, subtitleSize).left
      >= IconFrame(padding, style, icon).right
  {
  }

  /**
   * The subtitle's top is the title's top margin plus the title's measured
   * height plus its own top margin, so with a non-negative top margin it never
   * rises above the title's bottom, also when the title is 0 pixels high.
   */
  lemma SubtitleStackedUnderTitle(padding: Padding, style: Style, icon: MarginLayoutParams,
                                  title: MarginLayoutParams, titleSize: Size,
                                  subtitle: MarginLayoutParams, subtitleSize: Size)
    requires ModerateMargins(title) && ModerateMargins(subtitle)
    ensures SubtitleFrame(padding, style, icon, title, titleSize, subtitle, subtitleSize).top
         == title.topMargin + titleSize.height + subtitle.topMargin
    ensures SubtitleFrame(padding, style, icon, title, titleSize, subtitle, subtitleSize).top
         == TitleFrame(padding, style, icon, title, titleSize).bottom + subtitle.topMargin
    ensures subtitle.topMargin >= 0 ==>
      SubtitleFrame(padding, style, icon, title, titleSize, subtitle, subtitleSize).top
      >= TitleFrame(padding, style, icon, title, titleSize).bottom
  {
  }

  /**
   * The text rows are exactly as large as their measured sizes, and the
   * title's top is its own top margin, whatever the top padding is.
   */
  lemma TextFramesHaveMeasuredSize(padding: Padding, style: Style, icon: MarginLayoutParams,
                                   title: MarginLayoutParams, titleSize: Size,
                                   subtitle: MarginLayoutParams, subtitleSize: Size)
    requires padding.Moderate() && style.Moderate()
    requires ModerateMargins(icon) && ModerateMargins(title) && ModerateMargins(subtitle)
    ensures TitleFrame(padding, style, icon, title, titleSize).Width() == titleSize.width
    ensures TitleFrame(padding, style, icon, title, titleSize).Height() == titleSize.height
    ensures SubtitleFrame(padding, style, icon, title, titleSize, subtitle, subtitleSize).Width()
         == subtitleSize.width
    ensures SubtitleFrame(padding, style, icon, title, titleSize, subtitle, subtitleSize).Height()
         == subtitleSize.height
    ensures TitleFrame(padding, style, icon, title, titleSize).top == title.topMargin
  {
  }

  /** All four margins are non-negative. */
  predicate NonNegativeMargins(p: MarginLayoutParams) {
    p.marginStart >= 0 && p.marginEnd >= 0 && p.topMargin >= 0 && p.bottomMargin >= 0
  }

  /**
   * Given the size onMeasure asks for, every frame stays clear of the start,
   * end and bottom padding and below the container's top edge (margins,
   * padding and avatar width non-negative): the measurement leaves room for
   * the placement.
   */
  lemma FramesFitDesiredSize(padding: Padding, style: Style, icon: MarginLayoutParams,
                             title: MarginLayoutParams, titleSize: Size,
                             subtitle: MarginLayoutParams, subtitleSize: Size)
    requires padding.Moderate() && style.Moderate()
    requires ModerateMargins(icon) && ModerateMargins(title) && ModerateMargins(subtitle)
    requires padding.start >= 0 && padding.end >= 0 && padding.top >= 0 && padding.bottom >= 0
    requires style.photoViewWidth >= 0
    requires NonNegativeMargins(icon) && NonNegativeMargins(title) && NonNegativeMargins(subtitle)
    ensures var w := DesiredWidth(padding, IconFootprint(style, icon),
                                  Footprint(titleSize, title), Footprint(subtitleSize, subtitle));
            var h := DesiredHeight(padding, style, IconFootprint(style, icon),
                                   Footprint(titleSize, title), Footprint(subtitleSize, subtitle));
            && IconFrame(padding, style, icon).WithinPadded(w, h, padding)
            && TitleFrame(padding, style, icon, title, titleSize).WithinPadded(w, h, padding)
            && SubtitleFrame(padding, style, icon, title, titleSize, subtitle, subtitleSize).WithinPadded(w, h, padding)
  {
    DesiredWidthHoldsIconBesideText(padding, style, icon, title, titleSize, subtitle, subtitleSize);
    DesiredHeightHoldsStack(padding, style, icon, title, titleSize, subtitle, subtitleSize);
    IconFrameFromPaddingAndStyle(padding, style, icon);
    TextRowsRightOfIcon(padding, style, icon, title, titleSize, subtitle, subtitleSize);
    SubtitleStackedUnderTitle(padding, style, icon, title, titleSize, subtitle, subtitleSize);
    TextFramesHaveMeasuredSize(padding, style, icon, title, titleSize, subtitle, subtitleSize);
  }

  /**
   * `photoViewWidth` and `photoViewHeight` are used as pixel counts even when
   * they hold the `WRAP_CONTENT` sentinel: the icon's frame is then inverted
   * (right of it 2 pixels left of its left edge), and the width handed to the
   * text rows as used is 2 pixels less than the icon's margins.
   */
  lemma WrapContentAvatarInvertsIconFrame(padding: Padding, style: Style, icon: MarginLayoutParams)
    requires padding.Moderate() && style.Moderate() && ModerateMargins(icon)
    requires style.photoViewWidth == WRAP_CONTENT
    ensures IconFrame(padding, style, icon).right == IconFrame(padding, style, icon).left - 2
    ensures IconFrame(padding, style, icon).right < IconFrame(padding, style, icon).left
    ensures IconFootprint(style, icon).width == icon.marginStart + icon.marginEnd - 2
  {
  }
}
