/** `SheetViewController` (Sources/SheetUI/SheetViewController.swift) as a
    class whose fields its gesture and lifecycle handlers update in place.
    Each handler is proved to perform the corresponding step of module
    SheetMachine, whose lemmas cover whole runs. */
module SheetController {
  import opened Wrappers
  import opened SheetStyle
  import M = SheetMachine

  class SheetViewController {
    /** `style.isModalInPresentation` */
    const isModal: bool
    /** The velocity above which a released pan dismisses (points per second). */
    const velocityThreshold: real
    /** The height of `containerView`, from which `targetSwipeDistance` is taken. */
    const containerHeight: real

    /** `originPoint`, y coordinate only. */
    var originY: Option<real>
    /** `view.frame.origin.y` */
    var frameY: real
    /** Whether `dismiss(animated:completion:)` has been called on the sheet. */
    var dismissed: bool
    /** The `isPresented` binding. */
    var isPresented: bool

    function Config(): M.Config
    {
      M.Config(isModal, velocityThreshold, containerHeight)
    }

    function State(): M.SheetState
      reads this
    {
      M.SheetState(originY, frameY, dismissed, isPresented)
    }

    /** `init(isPresented:style:content:)`; the view starts at `frameY`. */
    constructor (isPresented: bool, style: SheetViewStyle, velocityThreshold: real, containerHeight: real, frameY: real)
      ensures isModal == style.isModalInPresentation
      ensures this.velocityThreshold == velocityThreshold && this.containerHeight == containerHeight
      ensures State() == M.Initial(isPresented, frameY)
    {
      this.isModal := style.isModalInPresentation;
      this.velocityThreshold := velocityThreshold;
      this.containerHeight := containerHeight;
      this.originY := None;
      this.frameY := frameY;
      this.dismissed := false;
      this.isPresented := isPresented;
    }

    /** `viewDidLayoutSubviews` with the view's frame at `viewY`. The rounded
        top-corner mask it re-applies is geometry and not modelled. */
    method Layout(viewY: real)
      modifies this
      ensures originY == if old(originY).None? then Some(viewY) else old(originY)
      ensures frameY == viewY
      ensures dismissed == old(dismissed) && isPresented == old(isPresented)
      ensures State() == M.AfterLayout(old(State()), viewY)
    {
      frameY := viewY;
      if originY.None? {
        originY := Some(frameY);
      }
    }

    /** `animateViewToOriginPoint`; the 0.3 s animation is reduced to its end state. */
    method AnimateToOrigin()
      modifies this`frameY
      ensures old(originY).Some? ==> frameY == originY.value
      ensures old(originY).None? ==> frameY == old(frameY)
      ensures State() == M.AfterReturn(old(State()))
    {
      if originY.Some? {
        frameY := originY.value;
      }
    }

    /** `handlePan` with the gesture's translation and velocity (y parts);
        `ended` is whether the gesture state is `.ended`. */
    method Pan(translationY: real, velocityY: real, ended: bool)
      modifies this`frameY, this`dismissed
      ensures translationY < 0.0 ==> frameY == old(frameY) && dismissed == old(dismissed)
      ensures translationY >= 0.0 && !ended ==> dismissed == old(dismissed)
      ensures translationY >= 0.0 && ended && isModal ==>
        dismissed == old(dismissed) && (originY.Some? ==> frameY == originY.value)
      ensures State() == M.AfterPan(Config(), old(State()), translationY, velocityY, ended)
    {
      if translationY < 0.0 {
        return;
      }
      if originY.Some? {
        frameY := originY.value + translationY;
      }
      if ended {
        if isModal {
          AnimateToOrigin();
          return;
        }
        if velocityY > velocityThreshold {
          dismissed := true;
        } else if translationY > M.TargetSwipeDistance(Config()) {
          dismissed := true;
        } else {
          AnimateToOrigin();
        }
      }
    }

    /** A touch on the sheet's view, routed through the tap recognizer's
        filter to `tappedView`. */
    method Tap(insideContent: bool)
      modifies this`dismissed
      ensures dismissed <==> old(dismissed) || (!insideContent && !isModal)
      ensures State() == M.AfterTap(Config(), old(State()), insideContent)
    {
      if !M.ShouldReceiveTouch(insideContent) {
        return;
      }
      if isModal {
        return;
      }
      dismissed := true;
    }

    /** `viewDidDisappear` */
    method Disappear()
      modifies this`isPresented
      ensures !isPresented
      ensures State() == M.AfterDisappear(old(State()))
    {
      isPresented := false;
    }
  }
}
