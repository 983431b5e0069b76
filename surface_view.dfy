/**
 * `CustomizationSurfaceView`: a surface view that fixes its surface size when
 * it is first laid out from 0x0, except right after a transition, which
 * consumes the transition flag instead.
 */
module SurfaceView {
  import opened Wrappers

  datatype Size = Size(width: int, height: int)

  class CustomizationSurfaceView {
    var isTransitioning: bool
    /** The size last passed to `holder.setFixedSize`, if any. */
    var fixedSize: Option<Size>

    constructor ()
      ensures !isTransitioning && fixedSize.None?
    {
      isTransitioning := false;
      fixedSize := None;
    }

    /**
     * `onSizeChanged`: only a change from 0x0 does anything; it clears a
     * pending transition flag, or else fixes the surface at the new size.
     */
    method OnSizeChanged(w: int, h: int, oldw: int, oldh: int)
      modifies this
      ensures !(oldw == 0 && oldh == 0) ==> isTransitioning == old(isTransitioning) && fixedSize == old(fixedSize)
      ensures oldw == 0 && oldh == 0 && old(isTransitioning) ==> !isTransitioning && fixedSize == old(fixedSize)
      ensures oldw == 0 && oldh == 0 && !old(isTransitioning) ==> !isTransitioning && fixedSize == Some(Size(w, h))
    {
      if oldw == 0 && oldh == 0 {
        if isTransitioning {
          isTransitioning := false;
        } else {
          fixedSize := Some(Size(w, h));
        }
      }
    }

    method SetTransitioning()
      modifies this
      ensures isTransitioning && fixedSize == old(fixedSize)
    {
      isTransitioning := true;
    }
  }

  /**
   * The transition flag is consumed by exactly one resize from 0x0: the first
   * such resize after `setTransitioning` keeps the old fixed size, the next
   * one fixes the surface, and a resize from a non-zero size does neither.
   */
  method TransitionScenario(first: Size, second: Size, third: Size)
    returns (afterLayout: Option<Size>, afterTransition: Option<Size>, afterResize: Option<Size>, afterNext: Option<Size>)
    ensures afterLayout == Some(first)
    ensures afterTransition == Some(first)
    ensures afterResize == Some(first)
    ensures afterNext == Some(third)
  {
    var view := new CustomizationSurfaceView();
    view.OnSizeChanged(first.width, first.height, 0, 0);
    afterLayout := view.fixedSize;
    view.SetTransitioning();
    view.OnSizeChanged(second.width, second.height, 0, 0);
    afterTransition := view.fixedSize;
    view.OnSizeChanged(third.width, third.height, 1, 1);
    afterResize := view.fixedSize;
    view.OnSizeChanged(third.width, third.height, 0, 0);
    afterNext := view.fixedSize;
  }
}
