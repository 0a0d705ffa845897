# ContactListItem layout, modelled in Dafny

`ContactListItem` is an Android view group with exactly three children: a round
avatar icon, a title text row and a subtitle text row. It measures them in a
fixed order (`onMeasure`), asks for a size of its own made of padding, the icon
beside the wider of the two stacked text rows, and a minimum row height
(`preferredListItemHeight`), and then places them with a fixed rectangle recipe
(`onLayout`). Its layout-parameter contract (`checkLayoutParams`,
`generateDefaultLayoutParams`, `generateLayoutParams(p)`) makes sure every child
carries margin-shaped params.

The project has five modules, one per layer of that code:

- `KotlinInt` (`kotlin_int.dfy`): Kotlin's 32-bit `Int`. Every `+` of the
  layout arithmetic is `Plus`, which wraps around as the JVM does. The
  properties are proved for "moderate" inputs (each padding, margin and
  styling constant within ±2^26), for which no intermediate sum can overflow;
  the functions themselves are defined for every `Int`.
- `Params` (`layout_params.dfy`): layout params as a datatype (`Plain` for a
  `ViewGroup.LayoutParams` that is not margin-shaped, `Margin` for a
  `MarginLayoutParams` or a subclass of it), the three overrides, and
  `AddViewParams`, the way `ViewGroup.addView` applies them to a child it
  adopts. This is why the `as MarginLayoutParams` casts in `onMeasure` and
  `onLayout` always succeed for the children the constructor adds.
- `Measure` (`measure.dfy`): the requests handed to `measureChildWithMargins`
  (the "width used" and "height used" values), footprints, the desired width
  and height, and `resolveSize`.
- `Placement` (`placement.dfy`): the three frames that `onLayout` computes.
- `Views` (`contact_list_item.dfy`): the container and its children as
  objects. `OnMeasure` writes the children's measured sizes and the
  container's own; `OnLayout` writes the children's frames. Their
  postconditions tie the new state to the functions of `Measure` and
  `Placement`, whose properties are proved there.

How the model treats what it cannot see:

- A child's measurement (`measureChildWithMargins`, which runs
  `getChildMeasureSpec` and the child's own `onMeasure`) is a function
  parameter of `OnMeasure`, one per child, from the request the container
  makes to the size the child reports. The model therefore states exactly
  which request each child receives and that each child's recorded size is
  its answer to that request.
- Measured sizes are `Dimension`s (0 to 2^24 - 1), because
  `getMeasuredWidth`/`getMeasuredHeight` keep only the bits of
  `MEASURED_SIZE_MASK`.
- `resolveSize` is written out with the Android semantics. Under EXACTLY it
  gives the spec size. Under AT_MOST it gives the smaller of the two. Under
  UNSPECIFIED it gives the desired size. Then only the low 24 bits are kept.
  A `MeasureSpec` is a decoded (mode, size) pair rather than a packed `Int`.
- `photoViewWidth` and `photoViewHeight` are used exactly as the code uses
  them, even when the styled attribute holds the `WRAP_CONTENT` (-2) or
  `MATCH_PARENT` (-1) sentinel. `WrapContentAvatarInvertsIconFrame` shows the
  consequence: the icon gets an inverted frame, 2 pixels "wide" to the left,
  and the width handed to the text rows as used is 2 less than the icon's
  margins. Lemmas whose conclusion needs a real pixel size say so in their
  preconditions.
- The width used handed to the text rows (`ContactListItem.kt` lines 153-154) and the icon's
  footprint width (lines 179-180) are the same expression; the model computes
  both with `IconFootprint`.

Behaviour of the code that the model keeps as written:

- The icon is measured first, but its measured size is never read. Both its
  footprint and its frame use the styled `photoViewWidth`/`photoViewHeight`.
  So no function of the model takes the icon's measured size.
- The minimum row height is applied before `resolveSize`. An EXACTLY spec, or
  an AT_MOST spec below the desired height, can still give a height below the
  floor. `MeasuredHeightKeepsFloor` states when the floor survives.
- Padding is not required to be non-negative. The code reads it as any `Int`.
- The title's top is its own top margin. The top padding plays no part in it,
  unlike the icon's top.

## Model

| member | source | states |
|---|---|---|
| `KotlinInt.Wrap` | src/main/java/com/example/views/ContactListItem.kt:179-199 | the 32-bit result of a computation is congruent to the exact value modulo 2^32, and equal to it when it fits |
| `KotlinInt.Plus` | src/main/java/com/example/views/ContactListItem.kt:179-199 | Kotlin `Int` addition: the exact sum when it fits in 32 bits, otherwise the sum minus or plus 2^32 |
| `KotlinInt.Max` | src/main/java/com/example/views/ContactListItem.kt:199-203 | `max` is at least both arguments and equals one of them |
| `Params.CheckAcceptsExactlyMarginShape` | src/main/java/com/example/views/ContactListItem.kt:260-262 | `checkLayoutParams` accepts every margin-shaped object and rejects null and every plain object |
| `Params.DefaultParamsAreWrapWrapZero` | src/main/java/com/example/views/ContactListItem.kt:270-272 | the default params are wrap/wrap with all four margins 0, and the check accepts them |
| `Params.GenerateIgnoresInput` | src/main/java/com/example/views/ContactListItem.kt:299-301 | `generateLayoutParams(p)` gives the same result for any two inputs, namely the default params, which the check accepts |
| `Params.AddViewParamsNormalizes` | src/main/java/com/example/views/ContactListItem.kt:73-100 | a child added to the view group always ends up with accepted params: accepted ones are kept unchanged, null or plain ones become the default |
| `Measure.ResolveSize` | src/main/java/com/example/views/ContactListItem.kt:205-210 | for a desired size that fits in 24 bits: UNSPECIFIED keeps it, AT_MOST (any spec size) gives the smaller of the two and never more than either, EXACTLY (spec size within 24 bits) gives the spec size; in every case, whatever the sizes, the result is congruent mod 2^24 to the value the mode chooses (the 24-bit mask) |
| `Measure.DesiredHeightFloor` | src/main/java/com/example/views/ContactListItem.kt:200-203 | the desired height is at least the minimum row height and at least the padded content height; it is the floor when the content is shorter, and the content height otherwise |
| `Measure.FootprintAddsMargins` | src/main/java/com/example/views/ContactListItem.kt:184-196 | a text child's footprint is its measured size plus its two margins on each axis |
| `Measure.RequestsFollowIcon` | src/main/java/com/example/views/ContactListItem.kt:144-174 | the icon is measured with nothing used; title and subtitle get the parent's specs and width used = photoViewWidth + icon start and end margins; height used is 0 for the title and the title's measured height for the subtitle |
| `Measure.DesiredWidthHoldsIconBesideText` | src/main/java/com/example/views/ContactListItem.kt:178-199 | the desired width is the horizontal padding plus the icon footprint plus the larger text footprint, so it is at least padding + icon + each text footprint |
| `Measure.DesiredHeightHoldsStack` | src/main/java/com/example/views/ContactListItem.kt:178-203 | the desired height is the vertical padding plus the taller of the icon footprint and the stacked text footprints, raised to the minimum row height |
| `Measure.MeasuredHeightKeepsFloor` | src/main/java/com/example/views/ContactListItem.kt:200-210 | under an UNSPECIFIED spec, or an AT_MOST spec with room for the desired height, the recorded height is the desired height and so at least the minimum row height |
| `Placement.IconFrameFromPaddingAndStyle` | src/main/java/com/example/views/ContactListItem.kt:214-224 | the icon's frame starts at padding plus icon margins and is exactly photoViewWidth by photoViewHeight; the text rows do not enter it |
| `Placement.TextRowsRightOfIcon` | src/main/java/com/example/views/ContactListItem.kt:226-240 | each text row's left edge is the icon's right edge plus the icon's end margin plus the row's own start margin; with non-negative margins both rows start at or right of the icon |
| `Placement.SubtitleStackedUnderTitle` | src/main/java/com/example/views/ContactListItem.kt:229-242 | the subtitle's top is title top margin + title measured height + subtitle top margin, i.e. the title's bottom plus the subtitle's top margin; no overlap when that margin is non-negative, also for a 0-high title |
| `Placement.TextFramesHaveMeasuredSize` | src/main/java/com/example/views/ContactListItem.kt:229-248 | both text frames are exactly their measured width and height, and the title's top is its top margin, whatever the top padding |
| `Placement.FramesFitDesiredSize` | src/main/java/com/example/views/ContactListItem.kt:178-248 | in a container of the desired size, with non-negative padding, margins and avatar width, all three frames lie clear of the start, end and bottom padding and at or below the container's top edge |
| `Placement.WrapContentAvatarInvertsIconFrame` | src/main/java/com/example/views/ContactListItem.kt:65-70 | when photoViewWidth holds WRAP_CONTENT, the icon's right edge lies 2 pixels left of its left edge and the width used is the icon margins minus 2 |
| `Views.ChildView.SetMeasuredDimension` | src/main/java/com/example/views/ContactListItem.kt:145-174 | a child's measurement records the size it reports |
| `Views.ChildView.Layout` | src/main/java/com/example/views/ContactListItem.kt:219-248 | `layout` gives the child exactly the frame passed |
| `Views.ContactListItem.constructor` | src/main/java/com/example/views/ContactListItem.kt:73-100 | three distinct fresh children: the icon with the default params, title and subtitle with match-parent/wrap-content params and the resolved 16dp start margin |
| `Views.ContactListItem.OnMeasure` | src/main/java/com/example/views/ContactListItem.kt:117-211 | icon, title and subtitle record their answers to exactly the requests of `RequestsFollowIcon`, in that order; the container records the desired width and height, each reconciled with its spec by `ResolveSize` |
| `Views.ContactListItem.OnLayout` | src/main/java/com/example/views/ContactListItem.kt:213-249 | each child's frame is the `Placement` frame built from the padding, the styling constants, the children's params and their recorded sizes; nothing else changes |
| `Views.ExampleRow` | src/main/java/com/example/views/ContactListItem.kt:117-249 | a 48x48 avatar, rows of 120x20 and 100x16, no margins or padding, a 64-pixel floor, EXACTLY 300 by UNSPECIFIED: the row is 300x64 with frames (0,0,48,48), (48,0,168,20) and (48,20,148,36) |
| `Views.ExampleRowWithTextMargin` | src/main/java/com/example/views/ContactListItem.kt:86-99 | the same row with the text rows' 16dp start margin at 32 pixels: still 300x64, icon (0,0,48,48), title (80,0,200,20), subtitle (80,20,180,36) |

## Left out

- Theme and attribute resolution in `init` (`obtainStyledAttributes`, `listPreferredItemHeight`, the foreground drawable, the avatar dimension lookup): the resolved integers are constructor inputs.
- `dpToPx`: a floating-point display-metrics conversion; the 16dp start margin of the text rows enters as an already converted `Int`.
- Child creation details (text appearance, ellipsizing, colours, `ImageFilterView` styling): opaque widget internals with no effect on the arithmetic.
- `displayEditorData`: a preview-only edit-mode branch.
- `dispatchDraw`: it paints through the canvas.
- `generateLayoutParams(attrs)`: XML inflation through a framework constructor.
- `measureChildWithMargins`, `getChildMeasureSpec` and the children's own measurement: framework code, represented by the per-child function parameters of `OnMeasure`.
- Right-to-left resolution of `marginStart`/`marginEnd` and `paddingStart`/`paddingEnd`: each is taken as already resolved.
- The measured-state bits (`MEASURED_STATE_TOO_SMALL`) and the packed `Int` encoding of a `MeasureSpec`: `resolveSize` drops the state bits anyway, and a spec is a (mode, size) pair.
- Replacing a child's params directly with a non-margin object after construction: the child's params field has the margin shape, so the `ClassCastException` the casts would then throw is not modelled.
- `setPadding` and other later changes to padding: padding is set at construction.
- Measure.DesiredWidthHoldsIconBesideText: stated only for moderate inputs (each within ±2^26), because beyond that the Kotlin sums wrap around; the same bound applies to the other lemmas of `Measure` and `Placement` that compare against exact sums.
