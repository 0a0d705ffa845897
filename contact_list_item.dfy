/**
 * The `ContactListItem` view group as state: three children whose measured
 * sizes `onMeasure` writes and whose frames `onLayout` writes, and the
 * container's own measured size. The arithmetic between those writes is the
 * one defined in modules Measure and Placement.
 */
module Views {
  import opened KotlinInt
  import opened Params
  import opened Measure
  import opened Placement

  /**
   * A child view as the container sees it: its layout params, the size its
   * last measurement produced, and the frame its last layout gave it.
   */
  class ChildView {
    var layoutParams: MarginLayoutParams
    var measuredWidth: Dimension
    var measuredHeight: Dimension
    var frame: Rect

    /** A child that has been neither measured nor laid out. */
    constructor (p: MarginLayoutParams)
      ensures layoutParams == p
      ensures measuredWidth == 0 && measuredHeight == 0
      ensures frame == Rect(0, 0, 0, 0)
    {
      layoutParams := p;
      measuredWidth, measuredHeight := 0, 0;
      frame := Rect(0, 0, 0, 0);
    }

    function Measured(): Size
      reads this
    {
      Size(measuredWidth, measuredHeight)
    }

    /** The child's measurement ends by recording the size it chose. */
    method SetMeasuredDimension(s: Size)
      modifies this`measuredWidth, this`measuredHeight
      ensures Measured() == s
    {
      measuredWidth, measuredHeight := s.width, s.height;
    }

    /** `View.layout`: the child takes the given frame. */
    method Layout(r: Rect)
      modifies this`frame
      ensures frame == r
    {
      frame := r;
    }
  }

  class ContactListItem {
    /** `preferredListItemHeight`, `photoViewWidth`, `photoViewHeight`, resolved at construction. */
    const style: Style
    const iconView: ChildView
    const titleView: ChildView
    const subtitleView: ChildView
    var padding: Padding
    var measuredWidth: Dimension
    var measuredHeight: Dimension

    /** The three children are distinct objects. */
    ghost predicate Valid()
      reads this
    {
      iconView != titleView && iconView != subtitleView && titleView != subtitleView
    }

    function Measured(): Size
      reads this
    {
      Size(measuredWidth, measuredHeight)
    }

    /**
     * Construction with the resolved styling constants, the view's padding
     * and the resolved 16dp start margin of the text rows: the icon is added
     * without params and so gets the default ones; the title and subtitle
     * are added with match-parent/wrap-content margin params that carry that
     * start margin.
     */
    constructor (style: Style, padding: Padding, textMarginStart: Int)
      ensures Valid()
      ensures fresh(iconView) && fresh(titleView) && fresh(subtitleView)
      ensures this.style == style && this.padding == padding
      ensures iconView.layoutParams == GenerateDefaultLayoutParams()
      ensures titleView.layoutParams == Margin(MATCH_PARENT, WRAP_CONTENT, textMarginStart, 0, 0, 0)
      ensures subtitleView.layoutParams == Margin(MATCH_PARENT, WRAP_CONTENT, textMarginStart, 0, 0, 0)
      ensures Measured() == Size(0, 0)
    {
      this.style := style;
      this.padding := padding;
      var textParams := Margin(MATCH_PARENT, WRAP_CONTENT, textMarginStart, 0, 0, 0);
      iconView := new ChildView(AddViewParams(None));
      titleView := new ChildView(AddViewParams(Some(textParams)));
      subtitleView := new ChildView(AddViewParams(Some(textParams)));
      measuredWidth, measuredHeight := 0, 0;
    }

    /**
     * `onMeasure`: measures the icon, then the title, then the subtitle
     * (each child answers a `measureChildWithMargins` request with a size,
     * modelled by the three functions), then records its own size: the
     * desired size reconciled with the two specs.
     */
    method OnMeasure(widthSpec: MeasureSpec, heightSpec: MeasureSpec,
                     measureIcon: MeasureRequest -> Size,
                     measureTitle: MeasureRequest -> Size,
                     measureSubtitle: MeasureRequest -> Size)
      requires Valid()
      modifies this`measuredWidth, this`measuredHeight
      modifies iconView`measuredWidth, iconView`measuredHeight
      modifies titleView`measuredWidth, titleView`measuredHeight
      modifies subtitleView`measuredWidth, subtitleView`measuredHeight
      ensures iconView.Measured() == measureIcon(IconRequest(widthSpec, heightSpec))
      ensures titleView.Measured()
           == measureTitle(TitleRequest(style, iconView.layoutParams, widthSpec, heightSpec))
      ensures subtitleView.Measured()
           == measureSubtitle(SubtitleRequest(style, iconView.layoutParams, widthSpec, heightSpec,
                                              titleView.measuredHeight))
      ensures var iconFootprint := IconFootprint(style, iconView.layoutParams);
              var titleFootprint := Footprint(titleView.Measured(), titleView.layoutParams);
              var subtitleFootprint := Footprint(subtitleView.Measured(), subtitleView.layoutParams);
              Measured() == Size(
                ResolveSize(DesiredWidth(padding, iconFootprint, titleFootprint, subtitleFootprint),
                            widthSpec),
                ResolveSize(DesiredHeight(padding, style, iconFootprint, titleFootprint, subtitleFootprint),
                            heightSpec))
    {
      iconView.SetMeasuredDimension(measureIcon(IconRequest(widthSpec, heightSpec)));

      var icon := iconView.layoutParams;
      titleView.SetMeasuredDimension(measureTitle(TitleRequest(style, icon, widthSpec, heightSpec)));
      subtitleView.SetMeasuredDimension(
        measureSubtitle(SubtitleRequest(style, icon, widthSpec, heightSpec, titleView.measuredHeight)));

      var iconFootprint := IconFootprint(style, icon);
      var titleFootprint := Footprint(titleView.Measured(), titleView.layoutParams);
      var subtitleFootprint := Footprint(subtitleView.Measured(), subtitleView.layoutParams);
      var width := DesiredWidth(padding, iconFootprint, titleFootprint, subtitleFootprint);
      var height := DesiredHeight(padding, style, iconFootprint, titleFootprint, subtitleFootprint);
      measuredWidth, measuredHeight := ResolveSize(width, widthSpec), ResolveSize(height, heightSpec);
    }

    /**
     * `onLayout`: gives each child its frame from the padding, the styling
     * constants, the children's margins and their measured sizes; the bounds
     * the container was given are not used.
     */
    method OnLayout(changed: bool, left: Int, top: Int, right: Int, bottom: Int)
      requires Valid()
      modifies iconView`frame, titleView`frame, subtitleView`frame
      ensures iconView.frame == IconFrame(padding, style, iconView.layoutParams)
      ensures titleView.frame
           == TitleFrame(padding, style, iconView.layoutParams, titleView.layoutParams, titleView.Measured())
      ensures subtitleView.frame
           == SubtitleFrame(padding, style, iconView.layoutParams,
                            titleView.layoutParams, titleView.Measured(),
                            subtitleView.layoutParams, subtitleView.Measured())
    {
      var icon := iconView.layoutParams;
      iconView.Layout(IconFrame(padding, style, icon));
      titleView.Layout(TitleFrame(padding, style, icon, titleView.layoutParams, titleView.Measured()));
      subtitleView.Layout(SubtitleFrame(padding, style, icon,
                                        titleView.layoutParams, titleView.Measured(),
                                        subtitleView.layoutParams, subtitleView.Measured()));
    }
  }

  /**
   * One row end to end: a 48x48 avatar without margins, text rows without
   * margins measuring 120x20 and 100x16, no padding, a 64-pixel minimum row
   * height, an exact width of 300 and an unspecified height. The row takes
   * 300x64; the icon sits at (0,0)-(48,48), the title at (48,0)-(168,20) and
   * the subtitle at (48,20)-(148,36).
   */
  method ExampleRow() returns (size: Size, icon: Rect, title: Rect, subtitle: Rect)
    ensures size == Size(300, 64)
    ensures icon == Rect(0, 0, 48, 48)
    ensures title == Rect(48, 0, 168, 20)
    ensures subtitle == Rect(48, 20, 148, 36)
  {
    var item := new ContactListItem(Style(64, 48, 48), Padding(0, 0, 0, 0), 0);
    item.OnMeasure(MeasureSpec(Exactly, 300), MeasureSpec(Unspecified, 0),
                   _ => Size(48, 48), _ => Size(120, 20), _ => Size(100, 16));
    item.OnLayout(true, 0, 0, item.measuredWidth, item.measuredHeight);
    size := item.Measured();
    icon, title, subtitle := item.iconView.frame, item.titleView.frame, item.subtitleView.frame;
  }

  /**
   * The same row with the text rows' start margin the constructor gives them
   * (16dp, 32 pixels at twice the baseline density): the text footprints
   * become 152 and 132 wide, the desired width 200, which the exact width
   * spec turns into 300; the text rows move 32 pixels right of the icon, to
   * (80,0)-(200,20) and (80,20)-(180,36).
   */
  method ExampleRowWithTextMargin() returns (size: Size, icon: Rect, title: Rect, subtitle: Rect)
    ensures size == Size(300, 64)
    ensures icon == Rect(0, 0, 48, 48)
    ensures title == Rect(80, 0, 200, 20)
    ensures subtitle == Rect(80, 20, 180, 36)
  {
    var item := new ContactListItem(Style(64, 48, 48), Padding(0, 0, 0, 0), 32);
    item.OnMeasure(MeasureSpec(Exactly, 300), MeasureSpec(Unspecified, 0),
                   _ => Size(48, 48), _ => Size(120, 20), _ => Size(100, 16));
    item.OnLayout(true, 0, 0, item.measuredWidth, item.measuredHeight);
    size := item.Measured();
    icon, title, subtitle := item.iconView.frame, item.titleView.frame, item.subtitleView.frame;
  }
}
