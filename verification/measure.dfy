/** onMeasure: after the host has measured the view, the widget overrides the
    measured dimension axis by axis from the parent's measure-spec mode. The
    host's own measurement and the mode's bit encoding are inputs here.
 */
module Measure {
  import opened Styles
  import opened FollowButton

  /** The measure-spec modes a parent layout can impose. */
  datatype Mode = AtMost | Unspecified | Exactly

  /** The dimension kept on one axis: at most the smaller of the two,
      unspecified the widget's own value, exactly the host's measurement. */
  function Pick(mode: Mode, own: int, measured: int): (d: int)
    ensures mode == AtMost ==> d <= own && d <= measured && (d == own || d == measured)
    ensures mode == Unspecified ==> d == own
    ensures mode == Exactly ==> d == measured
  {
    match mode
    case AtMost => if own <= measured then own else measured
    case Unspecified => own
    case Exactly => measured
  }

  /** onMeasure: stores the picked width and height back into the widget's
      own fields (which setMeasuredDimension then reports) and changes
      nothing else. Only an exact spec can make a dimension grow. */
  function OnMeasure(b: Button, widthMode: Mode, heightMode: Mode, measuredWidth: int, measuredHeight: int): (r: Button)
    ensures r.(width := b.width, height := b.height) == b
    ensures r.width == b.width || r.width == measuredWidth
    ensures r.height == b.height || r.height == measuredHeight
    ensures widthMode != Exactly ==> r.width <= b.width
    ensures heightMode != Exactly ==> r.height <= b.height
    ensures widthMode == AtMost ==> r.width <= measuredWidth
    ensures heightMode == AtMost ==> r.height <= measuredHeight
    ensures widthMode == Unspecified ==> r.width == b.width
    ensures heightMode == Unspecified ==> r.height == b.height
    ensures widthMode == Exactly ==> r.width == measuredWidth
    ensures heightMode == Exactly ==> r.height == measuredHeight
  {
    b.(width := Pick(widthMode, b.width, measuredWidth), height := Pick(heightMode, b.height, measuredHeight))
  }

  /** Measuring twice with the same specs and measurements is measuring once. */
  lemma MeasureIdempotent(b: Button, widthMode: Mode, heightMode: Mode, measuredWidth: int, measuredHeight: int)
    ensures var once := OnMeasure(b, widthMode, heightMode, measuredWidth, measuredHeight);
      OnMeasure(once, widthMode, heightMode, measuredWidth, measuredHeight) == once
  {
  }

  /** A narrowing is sticky: the width is not re-resolved by measuring, so a
      later unspecified pass keeps the narrowed value. Any click or property
      assignment brings the table width back, since each one re-resolves it
      (an assignment does so even when the value does not change). */
  lemma NarrowingSticks(b: Button, measuredWidth: int, measuredHeight: int, laterWidth: int, laterHeight: int,
                        to: bool, suggestedMinWidth: int, suggestedMinHeight: int, viewHeight: int)
    ensures var narrowed := OnMeasure(b, AtMost, AtMost, measuredWidth, measuredHeight);
      && OnMeasure(narrowed, Unspecified, Unspecified, laterWidth, laterHeight).width
           == (if b.width <= measuredWidth then b.width else measuredWidth)
      && Click(narrowed).width == WidthSize(b.size)
      && SetFollowed(narrowed, to).width == WidthSize(b.size)
      && (SetSize(narrowed, b.size, suggestedMinWidth, suggestedMinHeight, viewHeight).Success? ==>
            SetSize(narrowed, b.size, suggestedMinWidth, suggestedMinHeight, viewHeight).value.width == WidthSize(b.size))
  {
  }

  /** Measuring never disturbs the resolved appearance. */
  lemma MeasureKeepsAppearance(b: Button, widthMode: Mode, heightMode: Mode, measuredWidth: int, measuredHeight: int)
    requires AppearanceResolved(b)
    ensures AppearanceResolved(OnMeasure(b, widthMode, heightMode, measuredWidth, measuredHeight))
  {
  }
}
