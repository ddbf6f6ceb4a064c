/** A button's life as a sequence of events on the UI thread: clicks, property
    assignments and measure passes, replayed in order. A thrown exception ends
    the replay.
 */
module Events {
  import opened FollowButton
  import opened Measure

  datatype Event =
    | Clicked
    | FollowedSet(followed: bool)
    | SizeSet(size: int, suggestedMinWidth: int, suggestedMinHeight: int, viewHeight: int)
    | Measured(widthMode: Mode, heightMode: Mode, measuredWidth: int, measuredHeight: int)

  /** One event. Only a size assignment can throw, and only on a button whose
      background was never assigned. */
  function Step(b: Button, e: Event): (r: Result<Button>)
    ensures r.Failure? <==> e.SizeSet? && b.background.None?
  {
    match e
    case Clicked => Success(Click(b))
    case FollowedSet(to) => Success(SetFollowed(b, to))
    case SizeSet(to, w, h, vh) => SetSize(b, to, w, h, vh)
    case Measured(wm, hm, mw, mh) => Success(OnMeasure(b, wm, hm, mw, mh))
  }

  function Run(b: Button, es: seq<Event>): Result<Button>
    decreases |es|
  {
    if |es| == 0 then Success(b)
    else
      match Step(b, es[0])
      case Failure(f) => Failure(f)
      case Success(next) => Run(next, es[1..])
  }

  function Clicks(es: seq<Event>): nat
    decreases |es|
  {
    if |es| == 0 then 0 else (if es[0].Clicked? then 1 else 0) + Clicks(es[1..])
  }

  /** Once the background is assigned nothing can throw any more, and the
      background stays assigned. */
  lemma {:induction false} InitialisedNeverThrows(b: Button, es: seq<Event>)
    requires b.background.Some?
    ensures Run(b, es).Success? && Run(b, es).value.background.Some?
    decreases |es|
  {
    if |es| > 0 {
      var next := Step(b, es[0]).value;
      InitialisedNeverThrows(next, es[1..]);
    }
  }

  /** A resolved appearance stays resolved through every kind of event. */
  lemma {:induction false} AppearanceStaysResolved(b: Button, es: seq<Event>)
    requires AppearanceResolved(b)
    ensures Run(b, es).Success? && AppearanceResolved(Run(b, es).value)
    decreases |es|
  {
    if |es| > 0 {
      match es[0] {
        case Clicked =>
        case FollowedSet(_) =>
        case SizeSet(to, w, h, vh) => SetSizeKeepsResolved(b, to, w, h, vh);
        case Measured(wm, hm, mw, mh) => MeasureKeepsAppearance(b, wm, hm, mw, mh);
      }
      AppearanceStaysResolved(Step(b, es[0]).value, es[1..]);
    }
  }

  /** In a run that does not throw and has no direct assignments to
      `followed`, the flag is the initial one flipped once per click. */
  lemma {:induction false} FollowedTracksClicks(b: Button, es: seq<Event>)
    requires Run(b, es).Success?
    requires forall i :: 0 <= i < |es| ==> !es[i].FollowedSet?
    ensures Run(b, es).value.followed == (b.followed != (Clicks(es) % 2 == 1))
    decreases |es|
  {
    if |es| > 0 {
      var next := Step(b, es[0]).value;
      assert forall i :: 0 <= i < |es[1..]| ==> !es[1..][i].FollowedSet? by {
        forall i | 0 <= i < |es[1..]| ensures !es[1..][i].FollowedSet? {
          assert es[1..][i] == es[i + 1];
        }
      }
      FollowedTracksClicks(next, es[1..]);
    }
  }

  /** As written, a button whose background was never assigned throws at the
      first size assignment that is not preceded by a click or a `followed`
      assignment (measure passes do not help). */
  lemma {:induction false} UnassignedBackgroundThrows(b: Button, es: seq<Event>, k: nat)
    requires b.background.None?
    requires k < |es| && es[k].SizeSet?
    requires forall i :: 0 <= i < k ==> es[i].Measured?
    ensures Run(b, es).Failure?
    decreases k
  {
    if k > 0 {
      var next := Step(b, es[0]).value;
      assert forall i :: 0 <= i < k - 1 ==> es[1..][i].Measured? by {
        forall i | 0 <= i < k - 1 ensures es[1..][i].Measured? {
          assert es[1..][i] == es[i + 1];
        }
      }
      UnassignedBackgroundThrows(next, es[1..], k - 1);
    }
  }

  /** With the intended constructor, no sequence of events ever throws, and
      the appearance always matches `followed` and `size`. */
  lemma IntendedNeverThrows(suggestedMinWidth: int, suggestedMinHeight: int, es: seq<Event>)
    ensures Run(PlainIntended(suggestedMinWidth, suggestedMinHeight), es).Success?
    ensures AppearanceResolved(Run(PlainIntended(suggestedMinWidth, suggestedMinHeight), es).value)
  {
    AppearanceStaysResolved(PlainIntended(suggestedMinWidth, suggestedMinHeight), es);
  }
}
