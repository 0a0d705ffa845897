/**
 * The arithmetic of `ContactListItem.onMeasure`: the "space already used"
 * handed to each child, each child's footprint (measured size plus its
 * margins), the container's desired size (padding, the icon beside the wider
 * of the two stacked text rows, and the minimum-row-height floor), and the
 * final reconciliation with the parent's constraint (`View.resolveSize`).
 */
module Measure {
  import opened KotlinInt
  import opened Params

  /** `View.MEASURED_SIZE_MASK`: a measured size keeps only its low 24 bits. */
  const MEASURED_SIZE_MASK: int := 0x00ff_ffff

  /** A measured size as `getMeasuredWidth()`/`getMeasuredHeight()` return it. */
  type Dimension = x: int | 0 <= x <= MEASURED_SIZE_MASK

  /** The size part of a `MeasureSpec` (its low 30 bits). */
  type SpecSize = x: int | 0 <= x < 0x4000_0000

  datatype Mode = Unspecified | AtMost | Exactly

  /** A decoded `MeasureSpec`: a mode and a size. */
  datatype MeasureSpec = MeasureSpec(mode: Mode, size: SpecSize)

  /** A child's measured width and height. */
  datatype Size = Size(width: Dimension, height: Dimension)

  /** A width/height pair in Kotlin `Int`s: a footprint or a desired size. */
  datatype Extent = Extent(width: Int, height: Int)

  /** The container's padding (`paddingStart`, `paddingEnd`, `paddingTop`, `paddingBottom`). */
  datatype Padding = Padding(start: Int, end: Int, top: Int, bottom: Int)
  {
    predicate Moderate() {
      KotlinInt.Moderate(start) && KotlinInt.Moderate(end) &&
      KotlinInt.Moderate(top) && KotlinInt.Moderate(bottom)
    }
  }

  /**
   * The constants resolved once at construction: the minimum row height
   * (`preferredListItemHeight`) and the avatar size (`photoViewWidth`,
   * `photoViewHeight`), each a pixel size or the `WRAP_CONTENT`/`MATCH_PARENT`
   * sentinel, used as written.
   */
  datatype Style = Style(preferredListItemHeight: Int, photoViewWidth: Int, photoViewHeight: Int)
  {
    predicate Moderate() {
      KotlinInt.Moderate(preferredListItemHeight) &&
      KotlinInt.Moderate(photoViewWidth) && KotlinInt.Moderate(photoViewHeight)
    }
  }

  /**
   * The arguments `onMeasure` passes to `measureChildWithMargins` for one
   * child: the parent's two specs and the width and height already used.
   */
  datatype MeasureRequest = MeasureRequest(widthSpec: MeasureSpec, widthUsed: Int,
                                           heightSpec: MeasureSpec, heightUsed: Int)

  /**
   * The space the icon takes: the styled avatar size plus the icon's margins.
   * Its width is both the `widthUsed` handed to the two text children and the
   * icon's footprint width.
   */
  function IconFootprint(style: Style, icon: MarginLayoutParams): Extent {
    Extent(Plus(Plus(style.photoViewWidth, icon.marginStart), icon.marginEnd),
           Plus(Plus(style.photoViewHeight, icon.topMargin), icon.bottomMargin))
  }

  /** The space a text child takes: its measured size plus its margins. */
  function Footprint(measured: Size, p: MarginLayoutParams): Extent {
    Extent(Plus(Plus(measured.width, p.marginStart), p.marginEnd),
           Plus(Plus(measured.height, p.topMargin), p.bottomMargin))
  }

  /** The icon is measured first, against the full parent specs. */
  function IconRequest(widthSpec: MeasureSpec, heightSpec: MeasureSpec): MeasureRequest {
    MeasureRequest(widthSpec, 0, heightSpec, 0)
  }

  /** The title is measured beside the icon, with no height used yet. */
  function TitleRequest(style: Style, icon: MarginLayoutParams,
                        widthSpec: MeasureSpec, heightSpec: MeasureSpec): MeasureRequest
  {
    MeasureRequest(widthSpec, IconFootprint(style, icon).width, heightSpec, 0)
  }

  /** The subtitle is measured beside the icon and below the measured title. */
  function SubtitleRequest(style: Style, icon: MarginLayoutParams,
                           widthSpec: MeasureSpec, heightSpec: MeasureSpec,
                           titleMeasuredHeight: Dimension): MeasureRequest
  {
    MeasureRequest(widthSpec, IconFootprint(style, icon).width, heightSpec, titleMeasuredHeight)
  }

  /** Padding plus the icon beside the wider of the two text footprints. */
  function DesiredWidth(padding: Padding, icon: Extent, title: Extent, subtitle: Extent): Int {
    Plus(Plus(Plus(padding.start, padding.end), icon.width), Max(title.width, subtitle.width))
  }

  /** Padding plus the taller of the icon and the two stacked text rows. */
  function ContentHeight(padding: Padding, icon: Extent, title: Extent, subtitle: Extent): Int {
    Plus(Plus(padding.top, padding.bottom), Max(icon.height, Plus(title.height, subtitle.height)))
  }

  /** The padded content height, raised to the minimum row height. */
  function DesiredHeight(padding: Padding, style: Style,
                         icon: Extent, title: Extent, subtitle: Extent): Int
  {
    Max(ContentHeight(padding, icon, title, subtitle), style.preferredListItemHeight)
  }

  /**
   * `View.resolveSize(size, spec)`: the spec size under EXACTLY, the smaller
   * of the two under AT_MOST, the desired size under UNSPECIFIED; then only
   * the low 24 bits are kept (`& MEASURED_SIZE_MASK`, which drops the
   * too-small state bit and equals a non-negative remainder mod 2^24).
   */
  function ResolveSize(size: Int, spec: MeasureSpec): (r: Dimension)
    ensures 0 <= size <= MEASURED_SIZE_MASK && (spec.mode == Exactly ==> spec.size <= MEASURED_SIZE_MASK) ==>
      match spec.mode
      case Unspecified => r == size
      case AtMost => r <= spec.size && r <= size && (r == spec.size || r == size)
      case Exactly => r == spec.size
    ensures spec.mode == Unspecified ==> (r - size) % (MEASURED_SIZE_MASK + 1) == 0
    ensures spec.mode == Exactly ==> (r - spec.size) % (MEASURED_SIZE_MASK + 1) == 0
    ensures spec.mode == AtMost && size <= spec.size ==> (r - size) % (MEASURED_SIZE_MASK + 1) == 0
    ensures spec.mode == AtMost && spec.size < size ==> (r - spec.size) % (MEASURED_SIZE_MASK + 1) == 0
  {
    var result := match spec.mode
      case AtMost => if spec.size < size then spec.size else size
      case Exactly => spec.size
      case Unspecified => size;
    LowBitsCongruent(result);
    result % (MEASURED_SIZE_MASK + 1)
  }

  /** Keeping the low 24 bits of `x` changes it by a multiple of 2^24. */
  lemma LowBitsCongruent(x: int)
    ensures (x % (MEASURED_SIZE_MASK + 1) - x) % (MEASURED_SIZE_MASK + 1) == 0
  {
    var m := MEASURED_SIZE_MASK + 1;
    var q := x / m;
    assert x % m - x == (-q) * m;
    MultipleHasNoRemainder(-q, m);
  }

  /** A multiple of `m` leaves no remainder: any other remainder would be a non-zero multiple of `m` below `m`. */
  lemma MultipleHasNoRemainder(k: int, m: int)
    requires m > 0
    ensures (k * m) % m == 0
  {
    var d := k - (k * m) / m;
    assert (k * m) % m == d * m;
    if d >= 1 {
      assert false;
    } else if d <= -1 {
      assert false;
    }
  }

  /**
   * The minimum row height always wins when the content is shorter, and the
   * desired height is never below either the floor or the padded content.
   */
  lemma DesiredHeightFloor(padding: Padding, style: Style,
                           icon: Extent, title: Extent, subtitle: Extent)
    ensures DesiredHeight(padding, style, icon, title, subtitle) >= style.preferredListItemHeight
    ensures DesiredHeight(padding, style, icon, title, subtitle) >= ContentHeight(padding, icon, title, subtitle)
    ensures ContentHeight(padding, icon, title, subtitle) < style.preferredListItemHeight ==>
      DesiredHeight(padding, style, icon, title, subtitle) == style.preferredListItemHeight
    ensures ContentHeight(padding, icon, title, subtitle) >= style.preferredListItemHeight ==>
      DesiredHeight(padding, style, icon, title, subtitle) == ContentHeight(padding, icon, title, subtitle)
  {
  }

  /**
   * With pixel values small enough not to overflow, a footprint is the
   * measured size plus the two margins on that axis.
   */
  lemma FootprintAddsMargins(measured: Size, p: MarginLayoutParams)
    requires ModerateMargins(p)
    ensures Footprint(measured, p).width == measured.width + p.marginStart + p.marginEnd
    ensures Footprint(measured, p).height == measured.height + p.topMargin + p.bottomMargin
  {
  }

  /**
   * The icon is measured with nothing used; both text children are measured
   * with the parent's own specs and the icon's footprint width as width used;
   * the title with no height used and the subtitle with exactly the title's
   * measured height used, so the subtitle's available height shrinks by what
   * the title took.
   */
  lemma RequestsFollowIcon(style: Style, icon: MarginLayoutParams,
                           widthSpec: MeasureSpec, heightSpec: MeasureSpec,
                           titleMeasuredHeight: Dimension)
    requires style.Moderate() && ModerateMargins(icon)
    ensures IconRequest(widthSpec, heightSpec) == MeasureRequest(widthSpec, 0, heightSpec, 0)
    ensures TitleRequest(style, icon, widthSpec, heightSpec).widthUsed
         == SubtitleRequest(style, icon, widthSpec, heightSpec, titleMeasuredHeight).widthUsed
         == style.photoViewWidth + icon.marginStart + icon.marginEnd
    ensures TitleRequest(style, icon, widthSpec, heightSpec).heightUsed == 0
    ensures SubtitleRequest(style, icon, widthSpec, heightSpec, titleMeasuredHeight).heightUsed
         == titleMeasuredHeight
    ensures TitleRequest(style, icon, widthSpec, heightSpec).widthSpec == widthSpec
    ensures TitleRequest(style, icon, widthSpec, heightSpec).heightSpec == heightSpec
    ensures SubtitleRequest(style, icon, widthSpec, heightSpec, titleMeasuredHeight).widthSpec == widthSpec
    ensures SubtitleRequest(style, icon, widthSpec, heightSpec, titleMeasuredHeight).heightSpec == heightSpec
  {
  }

  /**
   * The desired width is the horizontal padding plus the icon's footprint
   * plus the wider text footprint, so it leaves room for the icon beside
   * either text row.
   */
  lemma DesiredWidthHoldsIconBesideText(padding: Padding, style: Style, icon: MarginLayoutParams,
                                        title: MarginLayoutParams, titleSize: Size,
                                        subtitle: MarginLayoutParams, subtitleSize: Size)
    requires padding.Moderate() && style.Moderate()
    requires ModerateMargins(icon) && ModerateMargins(title) && ModerateMargins(subtitle)
    ensures var iconWidth := style.photoViewWidth + icon.marginStart + icon.marginEnd;
            var titleWidth := titleSize.width + title.marginStart + title.marginEnd;
            var subtitleWidth := subtitleSize.width + subtitle.marginStart + subtitle.marginEnd;
            var w := DesiredWidth(padding, IconFootprint(style, icon),
                                  Footprint(titleSize, title), Footprint(subtitleSize, subtitle));
            && w >= padding.start + padding.end + iconWidth + titleWidth
            && w >= padding.start + padding.end + iconWidth + subtitleWidth
            && (w == padding.start + padding.end + iconWidth + titleWidth ||
                w == padding.start + padding.end + iconWidth + subtitleWidth)
  {
  }

  /**
   * The desired height is the vertical padding plus the taller of the icon
   * footprint and the two text footprints stacked, raised to the minimum row
   * height.
   */
  lemma DesiredHeightHoldsStack(padding: Padding, style: Style, icon: MarginLayoutParams,
                                title: MarginLayoutParams, titleSize: Size,
                                subtitle: MarginLayoutParams, subtitleSize: Size)
    requires padding.Moderate() && style.Moderate()
    requires ModerateMargins(icon) && ModerateMargins(title) && ModerateMargins(subtitle)
    ensures var iconHeight := style.photoViewHeight + icon.topMargin + icon.bottomMargin;
            var titleHeight := titleSize.height + title.topMargin + title.bottomMargin;
            var subtitleHeight := subtitleSize.height + subtitle.topMargin + subtitle.bottomMargin;
            var content := padding.top + padding.bottom +
                           (if iconHeight >= titleHeight + subtitleHeight then iconHeight
                            else titleHeight + subtitleHeight);
            var h := DesiredHeight(padding, style, IconFootprint(style, icon),
                                   Footprint(titleSize, title), Footprint(subtitleSize, subtitle));
            && h >= padding.top + padding.bottom + iconHeight
            && h >= padding.top + padding.bottom + titleHeight + subtitleHeight
            && h >= style.preferredListItemHeight
            && h == (if content >= style.preferredListItemHeight then content
                     else style.preferredListItemHeight)
  {
  }

  /**
   * When the parent leaves the height open (UNSPECIFIED), or caps it at no
   * less than the desired height (AT_MOST), the reconciled height keeps the
   * desired height and so the minimum row height.
   */
  lemma MeasuredHeightKeepsFloor(padding: Padding, style: Style,
                                 icon: Extent, title: Extent, subtitle: Extent,
                                 heightSpec: MeasureSpec)
    requires 0 <= DesiredHeight(padding, style, icon, title, subtitle) <= MEASURED_SIZE_MASK
    requires heightSpec.mode == Unspecified ||
             (heightSpec.mode == AtMost &&
              DesiredHeight(padding, style, icon, title, subtitle) <= heightSpec.size)
    ensures ResolveSize(DesiredHeight(padding, style, icon, title, subtitle), heightSpec)
         == DesiredHeight(padding, style, icon, title, subtitle)
    ensures ResolveSize(DesiredHeight(padding, style, icon, title, subtitle), heightSpec)
         >= style.preferredListItemHeight
  {
  }
}
