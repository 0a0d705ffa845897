/**
 * The layout-parameter contract of ContactListItem: which parameter shapes it
 * accepts (`checkLayoutParams`), what it hands out by default
 * (`generateDefaultLayoutParams`) and what it substitutes for a rejected
 * object (`generateLayoutParams(p)`), together with the way `ViewGroup.addView`
 * applies that contract to every child it adopts.
 */
module Params {
  import opened KotlinInt

  /** `ViewGroup.LayoutParams.MATCH_PARENT` */
  const MATCH_PARENT: Int := -1
  /** `ViewGroup.LayoutParams.WRAP_CONTENT` */
  const WRAP_CONTENT: Int := -2

  /** A nullable reference (`LayoutParams?`). */
  datatype Option<T> = None | Some(value: T)

  /**
   * A layout-parameter object. `Plain` is a `ViewGroup.LayoutParams` (or any
   * subclass not derived from `MarginLayoutParams`); `Margin` is a
   * `MarginLayoutParams` or any of its subclasses, with its resolved margins.
   * Requested width and height are a pixel size or one of the two sentinels.
   */
  datatype LayoutParams =
    | Plain(width: Int, height: Int)
    | Margin(width: Int, height: Int,
             marginStart: Int, marginEnd: Int, topMargin: Int, bottomMargin: Int)

  /** What every child of a ContactListItem carries: the margin shape. */
  type MarginLayoutParams = p: LayoutParams | p.Margin?
    witness Margin(WRAP_CONTENT, WRAP_CONTENT, 0, 0, 0, 0)

  /** The four margins are small enough that no layout sum overflows. */
  predicate ModerateMargins(p: MarginLayoutParams) {
    Moderate(p.marginStart) && Moderate(p.marginEnd) &&
    Moderate(p.topMargin) && Moderate(p.bottomMargin)
  }

  /** `checkLayoutParams(p)`: `p is MarginLayoutParams` (false for null). */
  predicate CheckLayoutParams(p: Option<LayoutParams>) {
    match p
    case Some(Margin(_, _, _, _, _, _)) => true
    case _ => false
  }

  /** `generateDefaultLayoutParams()`: wrap/wrap margin params. */
  function GenerateDefaultLayoutParams(): MarginLayoutParams {
    Margin(WRAP_CONTENT, WRAP_CONTENT, 0, 0, 0, 0)
  }

  /** `generateLayoutParams(p)`: the default, whatever `p` held. */
  function GenerateLayoutParams(p: Option<LayoutParams>): MarginLayoutParams {
    GenerateDefaultLayoutParams()
  }

  /**
   * The parameters a child ends up with after `addView(child)` (no params:
   * `None`) or `addView(child, params)`: a missing object is replaced by
   * the default, and one that `CheckLayoutParams` rejects is replaced by
   * `GenerateLayoutParams` of it.
   */
  function AddViewParams(p: Option<LayoutParams>): MarginLayoutParams {
    var q := if p.None? then GenerateDefaultLayoutParams() else p.value;
    if CheckLayoutParams(Some(q)) then q else GenerateLayoutParams(Some(q))
  }

  /**
   * The check accepts every margin-shaped object, whatever its sizes and
   * margins, and rejects a null reference and every plain object.
   */
  lemma CheckAcceptsExactlyMarginShape(width: Int, height: Int,
                                       marginStart: Int, marginEnd: Int, topMargin: Int, bottomMargin: Int)
    ensures CheckLayoutParams(Some(Margin(width, height, marginStart, marginEnd, topMargin, bottomMargin)))
    ensures !CheckLayoutParams(Some(Plain(width, height)))
    ensures !CheckLayoutParams(None)
  {
  }

  /** The default params are wrap/wrap, all margins 0, and pass the check. */
  lemma DefaultParamsAreWrapWrapZero()
    ensures GenerateDefaultLayoutParams().width == WRAP_CONTENT
    ensures GenerateDefaultLayoutParams().height == WRAP_CONTENT
    ensures GenerateDefaultLayoutParams().marginStart == 0
    ensures GenerateDefaultLayoutParams().marginEnd == 0
    ensures GenerateDefaultLayoutParams().topMargin == 0
    ensures GenerateDefaultLayoutParams().bottomMargin == 0
    ensures CheckLayoutParams(Some(GenerateDefaultLayoutParams()))
  {
  }

  /**
   * `generateLayoutParams(p)` ignores `p`: two arbitrary inputs give the same
   * answer, namely the default, which the check accepts.
   */
  lemma GenerateIgnoresInput(p: Option<LayoutParams>, q: Option<LayoutParams>)
    ensures GenerateLayoutParams(p) == GenerateLayoutParams(q) == GenerateDefaultLayoutParams()
    ensures CheckLayoutParams(Some(GenerateLayoutParams(p)))
  {
  }

  /**
   * Adoption never fails and always leaves the child with params the check
   * accepts: accepted params are kept as they are, anything else (null or a
   * plain object) becomes wrap/wrap with zero margins.
   */
  lemma AddViewParamsNormalizes(p: Option<LayoutParams>)
    ensures CheckLayoutParams(Some(AddViewParams(p)))
    ensures CheckLayoutParams(p) ==> AddViewParams(p) == p.value
    ensures !CheckLayoutParams(p) ==> AddViewParams(p) == GenerateDefaultLayoutParams()
  {
  }
}
