# FollowButton in Dafny

A model of `FollowButton`, an Android "Subscribe / Subscribed" toggle button.
The button has two public properties. `followed` is a boolean, and `size` is an
integer code: 0 is Normal, 1 is Small, and any other integer is accepted too.
Assigning either property re-resolves some of the private fields from fixed
lookup tables and then renders. The private fields are width, height, padding,
text, text colour and background. A click negates `followed`. `onMeasure` then
overrides the host's measured size, one axis at a time, according to the
parent's measure-spec mode.

The model is functional: an immutable `Button` record and pure transition
functions.

- `styles.dfy`, module `Styles`: the constants and the lookup tables. `Design`
  is a reference table indexed by size category (Normal/Small). The lemmas
  compare the code's integer-keyed tables against it.
- `button.dfy`, module `FollowButton`: the state, `render()`, the
  `followed` and `size` setters, the click, and construction.
- `measure.dfy`, module `Measure`: `onMeasure`.
- `events.dfy`, module `Events`: replays a sequence of clicks, property
  assignments and measure passes, and proves invariants over whole runs.

The model follows the code, including where it departs from the design table:

- There is no `expandable` flag.
- In the lookup tables, an undefined size code is treated as Normal for width,
  height and text size. For padding it gets the Small-unfollowed value of 4.
  After a size assignment the height does not depend on the size code at all
  (see Findings).
- Under an "at most" spec, `onMeasure` keeps `min(own, measured)`. It does not
  keep the larger of the minimum constraint and the resolved value.

## Model

| member | source | states |
|---|---|---|
| Styles.CategoryOf | app/src/main/java/co/ripzery/followbutton/FollowButton.kt:206-225 | every size code other than SIZE_SMALL (1) selects the Normal category |
| Styles.WidthSize | app/src/main/java/co/ripzery/followbutton/FollowButton.kt:206-211 | width is the design width of the size's category, the same for both `followed` values; it is 100 exactly for size 1, else 240 |
| Styles.HeightSize | app/src/main/java/co/ripzery/followbutton/FollowButton.kt:213-218 | height is the design height of the category: 24 exactly for size 1, 40 otherwise |
| Styles.TextSize | app/src/main/java/co/ripzery/followbutton/FollowButton.kt:220-225 | text size is the design text size of the category: 8 exactly for size 1, 12 otherwise |
| Styles.PaddingFor | app/src/main/java/co/ripzery/followbutton/FollowButton.kt:161-166 | for sizes 0 and 1 the padding is the design padding for (followed, category); for any other size it is the Small-unfollowed padding, whatever `followed` is |
| Styles.LabelFor | app/src/main/java/co/ripzery/followbutton/FollowButton.kt:189-194 | the label is "Subscribed" if and only if followed |
| Styles.TextColorFor | app/src/main/java/co/ripzery/followbutton/FollowButton.kt:182-187 | the text colour is white if and only if followed, teal otherwise |
| Styles.BackgroundFor | app/src/main/java/co/ripzery/followbutton/FollowButton.kt:175-180 | the background is the solid drawable if and only if followed, the outlined one otherwise |
| Styles.WidthIgnoresFollowed | app/src/main/java/co/ripzery/followbutton/FollowButton.kt:158-159 | width is 100 for size 1 and 240 for every other integer, and `followed` has no effect on it |
| Styles.PaddingTable | app/src/main/java/co/ripzery/followbutton/FollowButton.kt:158-166 | padding is 32 / 16 / 16 for (followed, 0) / (followed, 1) / (unfollowed, 0), and 4 in exactly the remaining cases; an undefined size gets Normal width but Small padding |
| Styles.FollowingExpandsPadding | app/src/main/java/co/ripzery/followbutton/FollowButton.kt:161-166 | following never shrinks the padding, and it grows it exactly for sizes 0 and 1 |
| Styles.AppearanceDeterminesFollowed | app/src/main/java/co/ripzery/followbutton/FollowButton.kt:175-194 | label, colour and background are each injective in `followed` |
| FollowButton.Plain | app/src/main/java/co/ripzery/followbutton/FollowButton.kt:25-38 | a freshly constructed button is unfollowed with size 0, has width, height and padding 0, no minimums set by the widget, and no background drawable assigned |
| FollowButton.ResolveWidth | app/src/main/java/co/ripzery/followbutton/FollowButton.kt:158-166 | the width is the design width of the size's category; the padding is the design padding for (followed, category) for sizes 0 and 1 and the Small-unfollowed padding otherwise; no other field changes |
| FollowButton.Render | app/src/main/java/co/ripzery/followbutton/FollowButton.kt:196-204 | rendering fails exactly when the background is unassigned; otherwise it uses the category's text size, `mPadding` on the left and right, 0 on the top and bottom, and the stored text, colour and background |
| FollowButton.SetFollowed | app/src/main/java/co/ripzery/followbutton/FollowButton.kt:121-130 | after assigning `followed`, width, padding, text, colour and background match the tables for the new flag; size, height and the minimums are unchanged; rendering succeeds with the matching label |
| FollowButton.Resize | app/src/main/java/co/ripzery/followbutton/FollowButton.kt:135-151 | the state change of a size assignment: the minimums become 100 x 24 for size 1 and the host's suggestions otherwise; width and padding follow the new size under the current `followed`; the height is 24 exactly when the view's pixel height is 1, else 40; nothing else changes |
| FollowButton.Click | app/src/main/java/co/ripzery/followbutton/FollowButton.kt:96-98 | a click negates `followed` and leaves the style resolved, with size and height unchanged |
| FollowButton.SetSize | app/src/main/java/co/ripzery/followbutton/FollowButton.kt:132-154 | assigning `size` throws exactly when the background is unassigned. Otherwise: the minimums become 100 x 24 for size 1 and the host's suggestions for other sizes; width and padding follow the new size under the current `followed`; the height is 24 exactly when the view's pixel height is 1, else 40; text, colour and background are kept |
| FollowButton.SetSizeIntended | app/src/main/java/co/ripzery/followbutton/FollowButton.kt:169-171 | with the height taken from the size code, the height is the design height of the new category; from a resolved button and for sizes 0 and 1, width, height and padding all match the design table (an undefined code still gets the Small-unfollowed padding of 4) |
| FollowButton.WithAttrs | app/src/main/java/co/ripzery/followbutton/FollowButton.kt:65-86 | a button built from layout attributes has the declared (or default) `followed` and `size` and a resolved style, and its height is 40 even when it is declared small |
| FollowButton.PlainIntended | app/src/main/java/co/ripzery/followbutton/FollowButton.kt:60-63 | the corrected context-only constructor assigns both property defaults as the attribute constructor does: an unfollowed, size-0, resolved button with the outlined background, width 240, height 40, padding 16 and the host's suggested minimums |
| FollowButton.SetFollowedForgetsOutput | app/src/main/java/co/ripzery/followbutton/FollowButton.kt:121-130 | the result of assigning `followed` depends on no earlier output, only on size, height and the minimums |
| FollowButton.ClickTwice | app/src/main/java/co/ripzery/followbutton/FollowButton.kt:96-98 | two clicks restore `followed` and all resolved fields; they return the identical state if and only if it was resolved before |
| FollowButton.SetSizeKeepsResolved | app/src/main/java/co/ripzery/followbutton/FollowButton.kt:132-154 | from a resolved appearance, assigning `size` succeeds and leaves the whole style resolved for the new size |
| FollowButton.SetSizeHeightIgnoresSize | app/src/main/java/co/ripzery/followbutton/FollowButton.kt:150-151 | switching a laid-out Normal button to Small leaves its height at 40 rather than 24, and a button declared small starts 40 tall |
| FollowButton.PlainSetSizeThrows | app/src/main/java/co/ripzery/followbutton/FollowButton.kt:196-200 | the first size assignment on a context-only button throws for every size; on the corrected construction it succeeds |
| Measure.Pick | app/src/main/java/co/ripzery/followbutton/FollowButton.kt:105-109 | an AT_MOST spec keeps a value at most both the own and the measured value, and equal to one of them; UNSPECIFIED keeps the own value; EXACTLY takes the measured value |
| Measure.OnMeasure | app/src/main/java/co/ripzery/followbutton/FollowButton.kt:100-118 | only width and height change; per axis, an at-most spec keeps a value no larger than the old and the measured one, an unspecified spec keeps the old value and an exact spec takes the measured value |
| Measure.MeasureIdempotent | app/src/main/java/co/ripzery/followbutton/FollowButton.kt:105-115 | measuring twice with the same specs and measurements is measuring once |
| Measure.NarrowingSticks | app/src/main/java/co/ripzery/followbutton/FollowButton.kt:105-109 | a narrowed width persists through a later unspecified pass; a click, a `followed` assignment or a successful `size` assignment each restore the table width |
| Measure.MeasureKeepsAppearance | app/src/main/java/co/ripzery/followbutton/FollowButton.kt:100-118 | measuring keeps padding, label, colour and background resolved |
| Events.Step | app/src/main/java/co/ripzery/followbutton/FollowButton.kt:121-154 | only a size assignment can throw, and only on a button without a background |
| Events.InitialisedNeverThrows | app/src/main/java/co/ripzery/followbutton/FollowButton.kt:175-200 | once the background is assigned, no sequence of events throws and it stays assigned |
| Events.AppearanceStaysResolved | app/src/main/java/co/ripzery/followbutton/FollowButton.kt:121-154 | a resolved appearance stays resolved through every sequence of clicks, assignments and measure passes |
| Events.FollowedTracksClicks | app/src/main/java/co/ripzery/followbutton/FollowButton.kt:96-98 | in any run that does not throw and has no direct `followed` assignments, the final flag is the initial one negated once per click |
| Events.UnassignedBackgroundThrows | app/src/main/java/co/ripzery/followbutton/FollowButton.kt:196-200 | without a background, the first size assignment not preceded by a click or a `followed` assignment throws |
| Events.IntendedNeverThrows | app/src/main/java/co/ripzery/followbutton/FollowButton.kt:60-63 | from the corrected construction, no sequence of events throws and the appearance always matches `followed` and `size` |

## Findings

| source | as written | input that shows it | evidently intended | confidence | as-written member | corrected member |
|---|---|---|---|---|---|---|
| app/src/main/java/co/ripzery/followbutton/FollowButton.kt:151 | `onSizeChanged` calls `resolveHeight(height)`, which passes the view's pixel height where `resolveHeight` expects a size code | `size = 1` on a laid-out Normal button 40 pixels tall keeps height 40; a button declared `size="small"` in its layout starts with height 40 | `resolveHeight(to)`, giving height 24 for Small | not executed; high | FollowButton.SetSizeHeightIgnoresSize | FollowButton.SetSizeIntended |
| app/src/main/java/co/ripzery/followbutton/FollowButton.kt:60-63 | the context-only constructor never assigns the `lateinit` background drawable, and `render()` reads it | `FollowButton(context)` followed by `size = 1`: `render()` throws an uninitialised-property exception | assign both property defaults at construction, as the attribute constructor does with no attributes given, so the background is set and the height is 40 | not executed; medium | Events.UnassignedBackgroundThrows | FollowButton.PlainIntended |

`Events` replays the code as written, so it uses `SetSize`. The corrected
members are defined beside it, and their properties are proved on their own:
`SetSizeIntended` for the height and `IntendedNeverThrows` for construction.

## Left out

- `IntExtension.kt`: its dp/px/sp conversions use the display's floating-point density, and `FollowButton` does not call them.
- Android resource lookups for strings, colours and drawables: these are opaque tags (`Label`, `TextColor`, `Background`).
- Attribute parsing (`obtainStyledAttributes`, `recycle`, default style arguments): the attribute values are optional inputs to `WithAttrs`.
- `WithAttrs`: takes the view's pixel height during construction to be 0, because the view has not been laid out yet.
- Typeface loading (commented out) and debug logging (disabled by a constant): neither has any behaviour.
- `setOnClickListener` and `requestLayout`: these are host plumbing. A click is the `Click` transition.
- `super.onMeasure` and the bit encoding of measure specs: the measured sizes and the mode are inputs.
- `suggestedMinimumWidth/Height` and the view's current pixel height: these are inputs. Each pair of minimum setters (`minHeight`/`minimumHeight`, `minWidth`/`minimumWidth`) is one value.
- `Delegates.observable`: replaced by explicit setters that store the value, re-resolve the fields and render.
- A setter that throws becomes a `Failure`. The partly updated state it leaves behind in the view is not modelled.
- `Render`: the text size is an integer here. The source converts it to a float, and the values 8 and 12 are exact in both.
