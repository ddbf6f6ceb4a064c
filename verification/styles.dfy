/** Lookup tables of the follow button: the constants of the companion object
    and the `when` tables that turn the `followed` flag and the integer `size`
    code into a width, height, padding, text size, label, text colour and
    background. Android resources (strings, colours, drawables) are opaque tags.
 */
module Styles {

  // Size codes of the `size` property. Any other integer is accepted too.
  const SIZE_NORMAL: int := 0
  const SIZE_SMALL: int := 1

  const WIDTH_NORMAL: int := 240
  const WIDTH_SMALL: int := 100
  const HEIGHT_NORMAL: int := 40
  const HEIGHT_SMALL: int := 24
  const PADDING: int := 16
  const PADDING_SMALL: int := 4
  const PADDING_EXPANDED: int := 32
  const PADDING_SMALL_EXPANDED: int := 16
  const TEXT_NORMAL: int := 12
  const TEXT_SMALL: int := 8

  /** The label string resources. */
  datatype Label = Subscribe | Subscribed

  /** The colour resources: colorWhite and colorBgSubscribed (the brand teal). */
  datatype TextColor = White | Teal

  /** The drawable resources: a solid and an outlined rounded aqua rectangle. */
  datatype Background = SolidAqua | StrokeAqua

  /** The two size categories the button is designed for. */
  datatype Category = Normal | Small

  /** The numeric part of a button's style. */
  datatype Layout = Layout(width: int, height: int, padding: int, textSize: int)

  /** The design table, indexed by category instead of by size code: the
      reference the code's integer-keyed tables are compared against. */
  function Design(followed: bool, c: Category): Layout
  {
    match c
    case Normal => Layout(240, 40, if followed then 32 else 16, 12)
    case Small => Layout(100, 24, if followed then 16 else 4, 8)
  }

  /** The category a size code selects for width, height and text size:
      every code other than SIZE_SMALL falls back to Normal. */
  function CategoryOf(size: int): (c: Category)
    ensures c == Small <==> size == SIZE_SMALL
  {
    if size == SIZE_SMALL then Small else Normal
  }

  function WidthSize(size: int): (w: int)
    ensures w == Design(false, CategoryOf(size)).width
    ensures w == Design(true, CategoryOf(size)).width
    ensures w == WIDTH_SMALL <==> size == SIZE_SMALL
  {
    if size == SIZE_SMALL then WIDTH_SMALL else WIDTH_NORMAL
  }

  function HeightSize(size: int): (h: int)
    ensures h == Design(false, CategoryOf(size)).height
    ensures h == HEIGHT_SMALL <==> size == SIZE_SMALL
  {
    if size == SIZE_SMALL then HEIGHT_SMALL else HEIGHT_NORMAL
  }

  function TextSize(size: int): (t: int)
    ensures t == Design(false, CategoryOf(size)).textSize
    ensures t == TEXT_SMALL <==> size == SIZE_SMALL
  {
    if size == SIZE_SMALL then TEXT_SMALL else TEXT_NORMAL
  }

  /** Horizontal padding. Unlike the other tables this one tests both size
      codes, so an undefined code lands on the last, Small-unfollowed row. */
  function PaddingFor(followed: bool, size: int): (p: int)
    ensures size == SIZE_NORMAL || size == SIZE_SMALL ==> p == Design(followed, CategoryOf(size)).padding
    ensures size != SIZE_NORMAL && size != SIZE_SMALL ==> p == Design(false, Small).padding
  {
    if followed && size == SIZE_NORMAL then PADDING_EXPANDED
    else if followed && size == SIZE_SMALL then PADDING_SMALL_EXPANDED
    else if !followed && size == SIZE_NORMAL then PADDING
    else PADDING_SMALL
  }

  function LabelFor(followed: bool): (l: Label)
    ensures l == Subscribed <==> followed
  {
    if followed then Subscribed else Subscribe
  }

  function TextColorFor(followed: bool): (c: TextColor)
    ensures c == White <==> followed
  {
    if followed then White else Teal
  }

  function BackgroundFor(followed: bool): (bg: Background)
    ensures bg == SolidAqua <==> followed
  {
    if followed then SolidAqua else StrokeAqua
  }

  /** Width is a function of the size code alone: the `followed` flag has no
      effect on it, and it is WIDTH_SMALL exactly for SIZE_SMALL. */
  lemma WidthIgnoresFollowed(size: int)
    ensures WidthSize(size) == (if size == SIZE_SMALL then 100 else 240)
    ensures forall f1: bool, f2: bool ::
      Design(f1, CategoryOf(size)).width == Design(f2, CategoryOf(size)).width
  {
  }

  /** The padding table, case by case, including the quirk that an undefined
      size code gets Normal width but Small padding. */
  lemma PaddingTable(followed: bool, size: int)
    ensures followed && size == SIZE_NORMAL ==> PaddingFor(followed, size) == 32
    ensures followed && size == SIZE_SMALL ==> PaddingFor(followed, size) == 16
    ensures !followed && size == SIZE_NORMAL ==> PaddingFor(followed, size) == 16
    ensures PaddingFor(followed, size) == 4 <==>
      !((followed && size == SIZE_NORMAL) || (followed && size == SIZE_SMALL) || (!followed && size == SIZE_NORMAL))
    ensures size != SIZE_NORMAL && size != SIZE_SMALL ==>
      WidthSize(size) == WidthSize(SIZE_NORMAL) && PaddingFor(followed, size) == PaddingFor(false, SIZE_SMALL)
  {
  }

  /** Following never shrinks the padding, and grows it exactly for the two
      defined size codes. */
  lemma FollowingExpandsPadding(size: int)
    ensures PaddingFor(true, size) >= PaddingFor(false, size)
    ensures PaddingFor(true, size) > PaddingFor(false, size) <==> size == SIZE_NORMAL || size == SIZE_SMALL
  {
  }

  /** Label, colour and background each tell the `followed` flag apart: no two
      flags share any of them. */
  lemma AppearanceDeterminesFollowed(f1: bool, f2: bool)
    ensures LabelFor(f1) == LabelFor(f2) <==> f1 == f2
    ensures TextColorFor(f1) == TextColorFor(f2) <==> f1 == f2
    ensures BackgroundFor(f1) == BackgroundFor(f2) <==> f1 == f2
  {
  }
}
