/** The swipe-to-dismiss state machine of `SheetViewController`
    (Sources/SheetUI/SheetViewController.swift), as functions on values.
    The class in module SheetController is proved to follow these
    functions step by step; the lemmas here are about whole event runs. */
module SheetMachine {
  import opened Wrappers

  /** What a sheet is configured with and never changes: the style's
      modal lock, the velocity threshold and the height of the container view. */
  datatype Config = Config(isModal: bool, velocityThreshold: real, containerHeight: real)

  /** The controller's mutable state: the captured origin (y only), the
      view frame's y, whether a dismissal has been requested, and the
      `isPresented` binding. */
  datatype SheetState = SheetState(originY: Option<real>, frameY: real, dismissed: bool, isPresented: bool)

  /** What happens when a pan ends. */
  datatype Decision = Dismiss | ReturnToOrigin

  /** The inputs the controller reacts to. */
  datatype Event =
    | LayoutPass(viewY: real)
    | Pan(translationY: real, velocityY: real, ended: bool)
    | Tap(insideContent: bool)
    | Disappear

  /** `targetSwipeDistance`: a quarter of the container's height. */
  function TargetSwipeDistance(c: Config): (d: real)
    ensures 4.0 * d == c.containerHeight
  {
    c.containerHeight * 0.25
  }

  /** The ordered rule applied when a pan ends: modal lock first, then
      velocity, then distance. */
  function EndDecision(c: Config, translationY: real, velocityY: real): (d: Decision)
    ensures c.isModal ==> d == ReturnToOrigin
    ensures d == Dismiss <==>
      !c.isModal && (velocityY > c.velocityThreshold || 4.0 * translationY > c.containerHeight)
  {
    if c.isModal then ReturnToOrigin
    else if velocityY > c.velocityThreshold then Dismiss
    else if translationY > TargetSwipeDistance(c) then Dismiss
    else ReturnToOrigin
  }

  /** `viewDidLayoutSubviews` with the view's frame at `viewY`: the origin
      is captured the first time and kept ever after. */
  function AfterLayout(s: SheetState, viewY: real): (t: SheetState)
    ensures t.originY == if s.originY.None? then Some(viewY) else s.originY
    ensures t.frameY == viewY
    ensures t.dismissed == s.dismissed && t.isPresented == s.isPresented
  {
    var origin := if s.originY.None? then Some(viewY) else s.originY;
    s.(originY := origin, frameY := viewY)
  }

  /** `animateViewToOriginPoint`: the frame goes back to the captured
      origin; without one nothing happens. */
  function AfterReturn(s: SheetState): (t: SheetState)
    ensures t.originY == s.originY && t.dismissed == s.dismissed && t.isPresented == s.isPresented
    ensures s.originY.Some? ==> t.frameY == s.originY.value
    ensures s.originY.None? ==> t == s
  {
    match s.originY
    case None => s
    case Some(y) => s.(frameY := y)
  }

  /** `handlePan`: upward drags are ignored entirely; otherwise the frame
      follows the finger from the origin and, when the pan has ended, the
      sheet is dismissed or sent back to the origin. */
  function AfterPan(c: Config, s: SheetState, translationY: real, velocityY: real, ended: bool): (t: SheetState)
    ensures translationY < 0.0 ==> t == s
    ensures t.originY == s.originY && t.isPresented == s.isPresented
    ensures translationY >= 0.0 && !ended ==>
      t.dismissed == s.dismissed &&
      t.frameY == (if s.originY.Some? then s.originY.value + translationY else s.frameY)
    ensures translationY >= 0.0 && ended ==>
      match EndDecision(c, translationY, velocityY)
      case Dismiss =>
        t.dismissed &&
        t.frameY == (if s.originY.Some? then s.originY.value + translationY else s.frameY)
      case ReturnToOrigin =>
        t.dismissed == s.dismissed && (s.originY.Some? ==> t.frameY == s.originY.value) &&
        (s.originY.None? ==> t == s)
  {
    if translationY < 0.0 then s
    else
      var followed := match s.originY
        case None => s
        case Some(y) => s.(frameY := y + translationY);
      if !ended then followed
      else match EndDecision(c, translationY, velocityY)
        case Dismiss => followed.(dismissed := true)
        case ReturnToOrigin => AfterReturn(followed)
  }

  /** `gestureRecognizer(_:shouldReceive:)`: touches inside the hosted
      content never reach the tap recognizer. */
  function ShouldReceiveTouch(insideContent: bool): (r: bool)
    ensures r <==> !insideContent
  {
    if insideContent then false else true
  }

  /** A touch on the sheet's view: delivered only outside the content, and
      then (`tappedView`) a dismissal unless the sheet is modal. */
  function AfterTap(c: Config, s: SheetState, insideContent: bool): (t: SheetState)
    ensures t.originY == s.originY && t.frameY == s.frameY && t.isPresented == s.isPresented
    ensures t.dismissed <==> s.dismissed || (!insideContent && !c.isModal)
  {
    if !ShouldReceiveTouch(insideContent) || c.isModal then s
    else s.(dismissed := true)
  }

  /** `viewDidDisappear`: the binding is always set to false. */
  function AfterDisappear(s: SheetState): (t: SheetState)
    ensures !t.isPresented
    ensures t.originY == s.originY && t.frameY == s.frameY && t.dismissed == s.dismissed
  {
    s.(isPresented := false)
  }

  function Step(c: Config, s: SheetState, e: Event): SheetState
  {
    match e
    case LayoutPass(y) => AfterLayout(s, y)
    case Pan(tr, v, ended) => AfterPan(c, s, tr, v, ended)
    case Tap(inside) => AfterTap(c, s, inside)
    case Disappear => AfterDisappear(s)
  }

  /** The state after the events `es`, in order. */
  function Run(c: Config, s: SheetState, es: seq<Event>): SheetState
    decreases |es|
  {
    if es == [] then s else Run(c, Step(c, s, es[0]), es[1..])
  }

  /** The state of a freshly initialised controller. */
  function Initial(isPresented: bool, frameY: real): (s: SheetState)
    ensures s.originY.None? && !s.dismissed && s.isPresented == isPresented
  {
    SheetState(None, frameY, false, isPresented)
  }

  /** Once captured, the origin never changes again, whatever happens. */
  lemma {:induction false} OriginCapturedOnce(c: Config, s: SheetState, es: seq<Event>)
    requires s.originY.Some?
    ensures Run(c, s, es).originY == s.originY
    decreases |es|
  {
    if es != [] {
      OriginCapturedOnce(c, Step(c, s, es[0]), es[1..]);
    }
  }

  /** The first layout pass of a fresh controller records the frame's y as
      the origin, and it stays the origin for the rest of the run. */
  lemma {:induction false} FirstLayoutFixesOrigin(c: Config, isPresented: bool, frameY: real, viewY: real, es: seq<Event>)
    ensures Run(c, Initial(isPresented, frameY), [LayoutPass(viewY)] + es).originY == Some(viewY)
  {
    var s := AfterLayout(Initial(isPresented, frameY), viewY);
    assert ([LayoutPass(viewY)] + es)[1..] == es;
    OriginCapturedOnce(c, s, es);
  }

  /** A modal sheet is never dismissed by a gesture or a tap, over any run. */
  lemma {:induction false} ModalNeverDismissed(c: Config, s: SheetState, es: seq<Event>)
    requires c.isModal
    ensures Run(c, s, es).dismissed == s.dismissed
    decreases |es|
  {
    if es != [] {
      ModalNeverDismissed(c, Step(c, s, es[0]), es[1..]);
    }
  }

  /** Without layout passes (which may move the view anywhere), a sheet at
      or below its origin stays at or below it: drags never lift it above. */
  lemma {:induction false} NeverAboveOrigin(c: Config, s: SheetState, es: seq<Event>)
    requires s.originY.Some? && s.frameY >= s.originY.value
    requires forall i :: 0 <= i < |es| ==> !es[i].LayoutPass?
    ensures Run(c, s, es).originY == s.originY
    ensures Run(c, s, es).frameY >= s.originY.value
    decreases |es|
  {
    if es != [] {
      var t := Step(c, s, es[0]);
      assert t.originY == s.originY && t.frameY >= s.originY.value;
      NeverAboveOrigin(c, t, es[1..]);
    }
  }

  /** A dismissal, once requested, is never withdrawn. */
  lemma {:induction false} DismissalSticks(c: Config, s: SheetState, es: seq<Event>)
    requires s.dismissed
    ensures Run(c, s, es).dismissed
    decreases |es|
  {
    if es != [] {
      DismissalSticks(c, Step(c, s, es[0]), es[1..]);
    }
  }

  /** A run of pans none of which has ended never dismisses the sheet. */
  lemma {:induction false} UnendedPansNeverDismiss(c: Config, s: SheetState, es: seq<Event>)
    requires forall i :: 0 <= i < |es| ==> es[i].Pan? && !es[i].ended
    ensures Run(c, s, es).dismissed == s.dismissed
    decreases |es|
  {
    if es != [] {
      UnendedPansNeverDismiss(c, Step(c, s, es[0]), es[1..]);
    }
  }

  /** Whatever happened before, a run that ends with the view disappearing
      leaves the binding false. */
  lemma {:induction false} DisappearClosesBinding(c: Config, s: SheetState, es: seq<Event>)
    ensures !Run(c, s, es + [Disappear]).isPresented
    decreases |es|
  {
    if es == [] {
      assert [] + [Disappear] == [Disappear];
    } else {
      assert (es + [Disappear])[1..] == es[1..] + [Disappear];
      DisappearClosesBinding(c, Step(c, s, es[0]), es[1..]);
    }
  }

  /** A pan whose translation is upward when it ends is ignored outright,
      not clamped at zero: a modal sheet left below its origin by the drag
      so far stays there instead of returning. */
  lemma UpwardEndLeavesModalSheetAway(c: Config, s: SheetState, translationY: real, velocityY: real)
    requires c.isModal && s.originY.Some? && s.frameY != s.originY.value && translationY < 0.0
    ensures AfterPan(c, s, translationY, velocityY, true).frameY != s.originY.value
    ensures AfterPan(c, s, 0.0, velocityY, true).frameY == s.originY.value
  {
  }

  /** A drag that is released below both thresholds sends the sheet back to
      exactly where it started, and the origin is unchanged. */
  lemma SlowShortDragReturns(c: Config, s: SheetState, translationY: real, velocityY: real)
    requires s.originY.Some? && !c.isModal
    requires 0.0 <= translationY && 4.0 * translationY <= c.containerHeight && velocityY <= c.velocityThreshold
    ensures AfterPan(c, s, translationY, velocityY, true) == s.(frameY := s.originY.value)
  {
  }
}
