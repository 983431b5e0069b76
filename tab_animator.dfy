/**
 * `TabItemAnimator`: a change that carries a select or unselect payload is
 * animated by growing or shrinking the tab's icon width and background alpha
 * between 0 and their maximum; any other change is left to the default animator.
 */
module TabAnimator {
  import opened Wrappers

  const SelectItem := 3024
  const UnselectItem := 1114
  const BackgroundAlphaMax := 255
  const AnimationDurationMillis := 200
  /** `ItemAnimator.FLAG_CHANGED`. */
  const FlagChanged := 2

  /** An element of a bind or change payload list: an `Int`, or anything else. */
  datatype Payload = IntPayload(value: int) | OtherPayload

  /** `if (payloads.isNotEmpty()) payloads[0] as? Int else null`. */
  function FirstIntPayload(payloads: seq<Payload>): (r: Option<int>)
    ensures r.Some? <==> |payloads| > 0 && payloads[0].IntPayload?
    ensures r.Some? ==> r.value == payloads[0].value
  {
    if |payloads| > 0 && payloads[0].IntPayload? then Some(payloads[0].value) else None
  }

  datatype ItemHolderInfo = TabItemHolderInfo(selectItem: bool) | DefaultHolderInfo

  /** A tab view holder is always reused for a change, whatever the payloads. */
  function CanReuseUpdatedViewHolder(payloads: seq<Payload>): (r: bool)
    ensures r
  {
    true
  }

  /**
   * `recordPreLayoutInformation`: a changed item whose first payload is the
   * select or unselect marker records which way it goes; everything else
   * gets the default information.
   */
  function RecordPreLayoutInformation(changeFlags: int, payloads: seq<Payload>): (r: ItemHolderInfo)
    ensures r.TabItemHolderInfo? <==>
              changeFlags == FlagChanged && FirstIntPayload(payloads) in {Some(SelectItem), Some(UnselectItem)}
    ensures r.TabItemHolderInfo? ==> (r.selectItem <==> FirstIntPayload(payloads) == Some(SelectItem))
  {
    if changeFlags == FlagChanged && |payloads| > 0 then
      match FirstIntPayload(payloads)
      case Some(v) =>
        if v == SelectItem then TabItemHolderInfo(true)
        else if v == UnselectItem then TabItemHolderInfo(false)
        else DefaultHolderInfo
      case None => DefaultHolderInfo
    else DefaultHolderInfo
  }

  /** What `animateChange` starts: a value animation from `from` to `to`, or the default change animation. */
  datatype ChangeAnimation = ValueAnimation(from: real, to: real, durationMillis: int) | DefaultChangeAnimation

  /** `animateChange`: a tab change animates from 0 to 1 when selecting and from 1 to 0 when unselecting. */
  function AnimateChange(preLayoutInfo: ItemHolderInfo): (r: ChangeAnimation)
    ensures r.ValueAnimation? <==> preLayoutInfo.TabItemHolderInfo?
    ensures r.ValueAnimation? ==>
              r.durationMillis == AnimationDurationMillis &&
              {r.from, r.to} == {0.0, 1.0} &&
              (r.to == 1.0 <==> preLayoutInfo.selectItem)
  {
    if preLayoutInfo.TabItemHolderInfo? then
      ValueAnimation(if preLayoutInfo.selectItem then 0.0 else 1.0, if preLayoutInfo.selectItem then 1.0 else 0.0,
        AnimationDurationMillis)
    else DefaultChangeAnimation
  }

  /** One animation frame: icon width and background alpha for an animated value. */
  datatype Frame = Frame(iconWidth: int, backgroundAlpha: int)

  /** The update listener: `(value * iconSize).toInt()` and `(value * 255).toInt()`, truncating a non-negative product. */
  function FrameAt(value: real, iconSize: nat): (f: Frame)
    requires 0.0 <= value <= 1.0
    ensures 0 <= f.iconWidth <= iconSize && 0 <= f.backgroundAlpha <= BackgroundAlphaMax
    ensures value == 0.0 ==> f == Frame(0, 0)
    ensures value == 1.0 ==> f == Frame(iconSize, BackgroundAlphaMax)
  {
    FloorBounds(value, iconSize as real, iconSize);
    FloorBounds(value, BackgroundAlphaMax as real, BackgroundAlphaMax);
    Frame((value * iconSize as real).Floor, (value * BackgroundAlphaMax as real).Floor)
  }

  lemma FloorBounds(value: real, scale: real, bound: nat)
    requires 0.0 <= value <= 1.0 && scale == bound as real
    ensures 0 <= (value * scale).Floor <= bound
  {
    assert 0.0 <= value * scale <= scale;
  }

  /** The frames never shrink while selecting: a larger value never gives a narrower icon or a lower alpha. */
  lemma {:induction false} FrameMonotone(v1: real, v2: real, iconSize: nat)
    requires 0.0 <= v1 <= v2 <= 1.0
    ensures FrameAt(v1, iconSize).iconWidth <= FrameAt(v2, iconSize).iconWidth
    ensures FrameAt(v1, iconSize).backgroundAlpha <= FrameAt(v2, iconSize).backgroundAlpha
  {
    FloorMonotone(v1 * iconSize as real, v2 * iconSize as real);
    FloorMonotone(v1 * BackgroundAlphaMax as real, v2 * BackgroundAlphaMax as real);
  }

  lemma FloorMonotone(a: real, b: real)
    requires a <= b
    ensures a.Floor <= b.Floor
  {
  }
}
