/**
 * `BasePreviewViewModel`: which-preview setter state, the latest wallpapers,
 * the colour-preview flag and the wallpaper-connection colours, which fall
 * back to "loaded, no colours" when a timeout fires while still loading.
 * The one-second delay is modelled as the `OnColorsTimeout` event.
 */
module PreviewViewModel {
  import opened Wrappers
  import opened Wallpapers
  import PreviewSelection

  datatype WallpapersAndWhich = WallpapersAndWhich(wallpapers: WallpaperModelsPair, whichPreview: WhichPreview)

  /** `wallpapersAndWhichPreview`: nothing until both inputs are non-null, then the pair of both. */
  function Gate(wallpapers: Option<WallpaperModelsPair>, whichPreview: Option<WhichPreview>): (r: Option<WallpapersAndWhich>)
  {
    if wallpapers.Some? && whichPreview.Some? then Some(WallpapersAndWhich(wallpapers.value, whichPreview.value)) else None
  }

  /** The gate emits exactly when both inputs are present, and then carries both unchanged. */
  lemma GateEmitsIffBothPresent(wallpapers: Option<WallpaperModelsPair>, whichPreview: Option<WhichPreview>)
    ensures Gate(wallpapers, whichPreview).Some? <==> wallpapers.Some? && whichPreview.Some?
    ensures Gate(wallpapers, whichPreview).Some? ==>
              Gate(wallpapers, whichPreview).value.wallpapers == wallpapers.value &&
              Gate(wallpapers, whichPreview).value.whichPreview == whichPreview.value
  {
  }

  /** What the timeout leaves behind: "loaded, no colours" if still loading, otherwise the state as it was. */
  function AfterTimeout(colors: WallpaperColorsModel): (r: WallpaperColorsModel)
  {
    if colors == Loading then Loaded(None) else colors
  }

  /**
   * After the timeout the colours are always loaded; a value set before the
   * timeout survives it; firing the timeout again changes nothing.
   */
  lemma TimeoutNeverOverwrites(colors: WallpaperColorsModel)
    ensures AfterTimeout(colors).Loaded?
    ensures colors.Loaded? ==> AfterTimeout(colors) == colors
    ensures colors == Loading ==> AfterTimeout(colors) == Loaded(None)
    ensures AfterTimeout(AfterTimeout(colors)) == AfterTimeout(colors)
  {
  }

  class BasePreviewViewModel {
    var whichPreview: Option<WhichPreview>
    /** `wallpapers`: the interactor's latest value, null until it first emits. */
    var wallpapers: Option<WallpaperModelsPair>
    var isWallpaperColorPreviewEnabled: bool
    var wallpaperConnectionColors: WallpaperColorsModel

    constructor ()
      ensures whichPreview == None && wallpapers == None
      ensures !isWallpaperColorPreviewEnabled
      ensures wallpaperConnectionColors == Loading
    {
      whichPreview, wallpapers := None, None;
      isWallpaperColorPreviewEnabled := false;
      wallpaperConnectionColors := Loading;
    }

    function WallpapersAndWhichPreview(): (r: Option<WallpapersAndWhich>)
      reads this
      ensures r == Gate(wallpapers, whichPreview)
    {
      Gate(wallpapers, whichPreview)
    }

    method SetWhichPreview(which: WhichPreview)
      modifies this
      ensures whichPreview == Some(which)
      ensures wallpapers == old(wallpapers) && wallpaperConnectionColors == old(wallpaperConnectionColors)
      ensures isWallpaperColorPreviewEnabled == old(isWallpaperColorPreviewEnabled)
    {
      whichPreview := Some(which);
    }

    /** The interactor emits its combine of the latest preview and current pair. */
    method OnWallpapersEmitted(previewing: Option<WallpaperModel>, current: WallpaperModelsPair)
      modifies this
      ensures wallpapers == Some(PreviewSelection.PreviewWallpapers(previewing, current))
      ensures whichPreview == old(whichPreview) && wallpaperConnectionColors == old(wallpaperConnectionColors)
      ensures isWallpaperColorPreviewEnabled == old(isWallpaperColorPreviewEnabled)
    {
      wallpapers := Some(PreviewSelection.PreviewWallpapers(previewing, current));
    }

    method SetIsWallpaperColorPreviewEnabled(enabled: bool)
      modifies this
      ensures isWallpaperColorPreviewEnabled == enabled
      ensures whichPreview == old(whichPreview) && wallpapers == old(wallpapers)
      ensures wallpaperConnectionColors == old(wallpaperConnectionColors)
    {
      isWallpaperColorPreviewEnabled := enabled;
    }

    /** Overwrites the colours unconditionally. */
    method SetWallpaperConnectionColors(colors: WallpaperColorsModel)
      modifies this
      ensures wallpaperConnectionColors == colors
      ensures whichPreview == old(whichPreview) && wallpapers == old(wallpapers)
      ensures isWallpaperColorPreviewEnabled == old(isWallpaperColorPreviewEnabled)
    {
      wallpaperConnectionColors := colors;
    }

    /** The delayed check: writes "loaded, no colours" only while still loading. */
    method OnColorsTimeout()
      modifies this
      ensures wallpaperConnectionColors == AfterTimeout(old(wallpaperConnectionColors))
      ensures whichPreview == old(whichPreview) && wallpapers == old(wallpapers)
      ensures isWallpaperColorPreviewEnabled == old(isWallpaperColorPreviewEnabled)
    {
      if wallpaperConnectionColors == Loading {
        wallpaperConnectionColors := Loaded(None);
      }
    }
  }

  /**
   * Nothing is emitted until both the wallpapers and the which-preview value
   * have arrived; colours set before the timeout are kept, and without them
   * the timeout yields "loaded, no colours".
   */
  method PreviewScenario(which: WhichPreview, previewing: Option<WallpaperModel>, current: WallpaperModelsPair, colors: Option<WallpaperColors>)
    returns (beforeAny: Option<WallpapersAndWhich>, afterWhich: Option<WallpapersAndWhich>,
             afterBoth: Option<WallpapersAndWhich>, keptColors: WallpaperColorsModel, timedOut: WallpaperColorsModel)
    ensures beforeAny == None && afterWhich == None
    ensures afterBoth == Some(WallpapersAndWhich(PreviewSelection.PreviewWallpapers(previewing, current), which))
    ensures keptColors == Loaded(colors)
    ensures timedOut == Loaded(None)
  {
    var vm := new BasePreviewViewModel();
    beforeAny := vm.WallpapersAndWhichPreview();
    vm.SetWhichPreview(which);
    afterWhich := vm.WallpapersAndWhichPreview();
    vm.OnWallpapersEmitted(previewing, current);
    afterBoth := vm.WallpapersAndWhichPreview();
    vm.SetWallpaperConnectionColors(Loaded(colors));
    vm.OnColorsTimeout();
    keptColors := vm.wallpaperConnectionColors;
    var other := new BasePreviewViewModel();
    other.OnColorsTimeout();
    timedOut := other.wallpaperConnectionColors;
  }
}
