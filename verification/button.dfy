/** The follow button's state and its property setters. Kotlin's observable
    delegates become explicit setters that store the new value, re-resolve the
    affected fields from the lookup tables and render. A setter that would
    throw returns a Failure instead of the partly updated state.
 */
module FollowButton {
  import opened Styles

  datatype Option<T> = None | Some(value: T)

  /** What render() can throw: it reads the late-initialised background
      drawable, which only an assignment to `followed` ever sets. */
  datatype Fault = UninitializedBackground

  datatype Result<T> = Success(value: T) | Failure(fault: Fault)

  /** The view's fields. `text` None is the initial empty string, `textColor`
      None the initial colour 0, `background` None a drawable not yet
      assigned, and `minWidth`/`minHeight` None the host's own minimums
      before the widget sets them. */
  datatype Button = Button(
    followed: bool,
    size: int,
    width: int,
    height: int,
    padding: int,
    text: Option<Label>,
    textColor: Option<TextColor>,
    background: Option<Background>,
    minWidth: Option<int>,
    minHeight: Option<int>)

  /** What render() hands to the host view: label, text size, text colour,
      background drawable and the four paddings (left, top, right, bottom). */
  datatype Frame = Frame(
    text: Option<Label>,
    textSize: int,
    textColor: Option<TextColor>,
    background: Background,
    paddingLeft: int,
    paddingTop: int,
    paddingRight: int,
    paddingBottom: int)

  /** Padding, label, colour and background agree with the tables for the
      current `followed` and `size`. */
  predicate AppearanceResolved(b: Button)
  {
    && b.padding == PaddingFor(b.followed, b.size)
    && b.text == Some(LabelFor(b.followed))
    && b.textColor == Some(TextColorFor(b.followed))
    && b.background == Some(BackgroundFor(b.followed))
  }

  /** As AppearanceResolved, and the width is the table width too (a
      measure pass may since have narrowed it). */
  predicate StyleResolved(b: Button)
  {
    AppearanceResolved(b) && b.width == WidthSize(b.size)
  }

  /** A button made with the context-only constructor: property defaults,
      zeroed private fields, and no setter has run yet. Its zero width and
      height are what an at-most measure pass then keeps. */
  function Plain(): (b: Button)
    ensures !b.followed && b.size == SIZE_NORMAL
    ensures b.width == 0 && b.height == 0 && b.padding == 0
    ensures b.minWidth.None? && b.minHeight.None?
    ensures b.background.None? && !AppearanceResolved(b)
  {
    Button(false, SIZE_NORMAL, 0, 0, 0, None, None, None, None, None)
  }

  /** resolveWidth: the width is the design width of the size's category,
      the padding comes from both inputs, and nothing else changes. */
  function ResolveWidth(b: Button, followed: bool, size: int): (r: Button)
    ensures r.width == Design(followed, CategoryOf(size)).width
    ensures size == SIZE_NORMAL || size == SIZE_SMALL ==> r.padding == Design(followed, CategoryOf(size)).padding
    ensures size != SIZE_NORMAL && size != SIZE_SMALL ==> r.padding == Design(false, Small).padding
    ensures r.(width := b.width, padding := b.padding) == b
  {
    b.(width := WidthSize(size), padding := PaddingFor(followed, size))
  }

  /** render(): fails exactly when the background was never assigned; text
      size follows the size code and the padding is horizontal only. */
  function Render(b: Button): (r: Result<Frame>)
    ensures r.Failure? <==> b.background.None?
    ensures r.Success? ==>
      && r.value.textSize == Design(b.followed, CategoryOf(b.size)).textSize
      && r.value.paddingLeft == b.padding && r.value.paddingRight == b.padding
      && r.value.paddingTop == 0 && r.value.paddingBottom == 0
      && r.value.text == b.text && r.value.textColor == b.textColor
      && b.background == Some(r.value.background)
  {
    match b.background
    case None => Failure(UninitializedBackground)
    case Some(bg) => Success(Frame(b.text, TextSize(b.size), b.textColor, bg, b.padding, 0, b.padding, 0))
  }

  /** Assigning `followed` (onFollowedChanged): width, padding, background,
      text colour and text are re-resolved from the new flag; size, height and
      the minimum constraints are untouched, and rendering cannot fail. */
  function SetFollowed(b: Button, to: bool): (r: Button)
    ensures r.followed == to
    ensures StyleResolved(r)
    ensures r.size == b.size && r.height == b.height
    ensures r.minWidth == b.minWidth && r.minHeight == b.minHeight
    ensures Render(r).Success?
    ensures Render(r).value.text == Some(if to then Subscribed else Subscribe)
  {
    ResolveWidth(b.(followed := to), to, b.size).(
      background := Some(BackgroundFor(to)),
      textColor := Some(TextColorFor(to)),
      text := Some(LabelFor(to)))
  }

  /** onClick: negates `followed` through the same setter. */
  function Click(b: Button): (r: Button)
    ensures r.followed == !b.followed
    ensures StyleResolved(r)
    ensures r.size == b.size && r.height == b.height
  {
    SetFollowed(b, !b.followed)
  }

  /** The state changes of onSizeChanged, before render(): the minimum
      constraints, then width and padding from the current `followed`, then
      the height from `viewHeight`, the view's current pixel height, which is
      what the code passes where the size code was evidently meant. The flag,
      label, colour and background are left alone. */
  function Resize(b: Button, to: int, suggestedMinWidth: int, suggestedMinHeight: int, viewHeight: int): (r: Button)
    ensures r.size == to
    ensures r.minWidth == Some(if to == SIZE_SMALL then 100 else suggestedMinWidth)
    ensures r.minHeight == Some(if to == SIZE_SMALL then 24 else suggestedMinHeight)
    ensures r.width == Design(b.followed, CategoryOf(to)).width
    ensures r.padding == PaddingFor(b.followed, to)
    ensures r.height == 24 <==> viewHeight == SIZE_SMALL
    ensures r.height == 24 || r.height == 40
    ensures r.(size := b.size, minWidth := b.minWidth, minHeight := b.minHeight,
               width := b.width, padding := b.padding, height := b.height) == b
  {
    var sized := b.(
      size := to,
      minWidth := Some(if to == SIZE_SMALL then WIDTH_SMALL else suggestedMinWidth),
      minHeight := Some(if to == SIZE_SMALL then HEIGHT_SMALL else suggestedMinHeight));
    ResolveWidth(sized, b.followed, to).(height := HeightSize(viewHeight))
  }

  /** Assigning `size` (onSizeChanged), as written. It throws when the
      background was never assigned; otherwise the minimums become 100 x 24
      for SIZE_SMALL and the host's suggestions for anything else, width and
      padding follow the new size under the current `followed`, the height is
      24 exactly when the view's pixel height is 1, and the label, colour and
      background stay as they were. */
  function SetSize(b: Button, to: int, suggestedMinWidth: int, suggestedMinHeight: int, viewHeight: int): (r: Result<Button>)
    ensures r.Failure? <==> b.background.None?
    ensures r.Success? ==>
      && r.value.size == to && r.value.followed == b.followed
      && r.value.minWidth == Some(if to == SIZE_SMALL then 100 else suggestedMinWidth)
      && r.value.minHeight == Some(if to == SIZE_SMALL then 24 else suggestedMinHeight)
      && r.value.width == Design(b.followed, CategoryOf(to)).width
      && r.value.padding == PaddingFor(b.followed, to)
      && (r.value.height == 24 <==> viewHeight == 1)
      && (r.value.height == 24 || r.value.height == 40)
      && r.value.text == b.text && r.value.textColor == b.textColor
      && r.value.background == b.background
  {
    var resized := Resize(b, to, suggestedMinWidth, suggestedMinHeight, viewHeight);
    match Render(resized)
    case Failure(f) => Failure(f)
    case Success(_) => Success(resized)
  }

  /** onSizeChanged as evidently intended: the height follows the new size
      code like the width does. From a resolved button it yields a button
      whose width, height and padding all match the design table. */
  function SetSizeIntended(b: Button, to: int, suggestedMinWidth: int, suggestedMinHeight: int): (r: Result<Button>)
    ensures r.Failure? <==> b.background.None?
    ensures r.Success? ==> r.value.height == Design(b.followed, CategoryOf(to)).height
    ensures r.Success? && AppearanceResolved(b) ==>
      && StyleResolved(r.value)
      && (to == SIZE_NORMAL || to == SIZE_SMALL ==>
            Layout(r.value.width, r.value.height, r.value.padding, TextSize(to)) == Design(b.followed, CategoryOf(to)))
  {
    var resized := Resize(b, to, suggestedMinWidth, suggestedMinHeight, 0).(height := HeightSize(to));
    match Render(resized)
    case Failure(f) => Failure(f)
    case Success(_) => Success(resized)
  }

  /** Construction from layout attributes: `followed` and then `size` are
      assigned, each falling back to its current value, so both setters run.
      The view has not been laid out yet, its pixel height is 0, and so the
      height is the Normal one whatever the size attribute says. */
  function WithAttrs(followedAttr: Option<bool>, sizeAttr: Option<int>, suggestedMinWidth: int, suggestedMinHeight: int): (r: Button)
    ensures r.followed == (followedAttr == Some(true))
    ensures r.size == (if sizeAttr.Some? then sizeAttr.value else SIZE_NORMAL)
    ensures StyleResolved(r) && Render(r).Success?
    ensures r.height == HEIGHT_NORMAL
  {
    var p := Plain();
    var followed := SetFollowed(p, if followedAttr.Some? then followedAttr.value else p.followed);
    Resize(followed, if sizeAttr.Some? then sizeAttr.value else followed.size, suggestedMinWidth, suggestedMinHeight, 0)
  }

  /** The context-only constructor as evidently intended: it assigns both
      properties their defaults, as the attribute constructor does with no
      attributes given, so the background is assigned before any render and
      width, height, padding and minimums all hold their Normal values. */
  function PlainIntended(suggestedMinWidth: int, suggestedMinHeight: int): (b: Button)
    ensures !b.followed && b.size == SIZE_NORMAL
    ensures StyleResolved(b) && b.background == Some(StrokeAqua)
    ensures b.width == WIDTH_NORMAL && b.height == HEIGHT_NORMAL && b.padding == PADDING
    ensures b.minWidth == Some(suggestedMinWidth) && b.minHeight == Some(suggestedMinHeight)
  {
    WithAttrs(None, None, suggestedMinWidth, suggestedMinHeight)
  }

  /** Resolution reads no earlier output: two buttons that agree on size,
      height and minimums end up equal after the same `followed` assignment. */
  lemma SetFollowedForgetsOutput(b1: Button, b2: Button, to: bool)
    requires b1.size == b2.size && b1.height == b2.height
    requires b1.minWidth == b2.minWidth && b1.minHeight == b2.minHeight
    ensures SetFollowed(b1, to) == SetFollowed(b2, to)
  {
  }

  /** Two clicks restore `followed` and every resolved field; they give back
      the very same state exactly when that state was resolved already. */
  lemma ClickTwice(b: Button)
    ensures Click(Click(b)).followed == b.followed
    ensures Click(Click(b)) == SetFollowed(b, b.followed)
    ensures Click(Click(b)) == b <==> StyleResolved(b)
  {
  }

  /** Assigning `size` keeps the appearance resolved, and the width as well:
      the label, colour and background do not depend on the size code. */
  lemma SetSizeKeepsResolved(b: Button, to: int, suggestedMinWidth: int, suggestedMinHeight: int, viewHeight: int)
    requires AppearanceResolved(b)
    ensures SetSize(b, to, suggestedMinWidth, suggestedMinHeight, viewHeight).Success?
    ensures StyleResolved(SetSize(b, to, suggestedMinWidth, suggestedMinHeight, viewHeight).value)
  {
  }

  /** The height as written ignores the size code: on a resolved Normal
      button, switching to SIZE_SMALL while the view is 40 pixels tall leaves
      the height at 40 instead of 24, and a button declared small in its
      layout attributes starts 40 tall. */
  lemma SetSizeHeightIgnoresSize()
    ensures var b := WithAttrs(None, None, 0, 0);
      && SetSize(b, SIZE_SMALL, 0, 0, 40).Success?
      && SetSize(b, SIZE_SMALL, 0, 0, 40).value.height == 40
      && SetSizeIntended(b, SIZE_SMALL, 0, 0).value.height == 24
    ensures WithAttrs(None, Some(SIZE_SMALL), 0, 0).height != HeightSize(SIZE_SMALL)
  {
  }

  /** A button from the context-only constructor throws on its first size
      assignment, whatever the size; the intended constructor does not. */
  lemma PlainSetSizeThrows(to: int, suggestedMinWidth: int, suggestedMinHeight: int, viewHeight: int)
    ensures SetSize(Plain(), to, suggestedMinWidth, suggestedMinHeight, viewHeight).Failure?
    ensures SetSize(PlainIntended(suggestedMinWidth, suggestedMinHeight), to, suggestedMinWidth, suggestedMinHeight, viewHeight).Success?
  {
  }
}
