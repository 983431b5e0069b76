/**
 * `WallpaperPreviewRepository`: the wallpaper chosen for the preview screen and
 * the two "tooltip has been shown" flags, which are mirrored into preferences.
 */
module PreviewRepository {
  import opened Wrappers
  import opened Wallpapers

  /** The two tooltip entries of `WallpaperPreferences` that this repository touches. */
  class WallpaperPreferences {
    var hasSmallPreviewTooltipBeenShown: bool
    var hasFullPreviewTooltipBeenShown: bool

    constructor (small: bool, full: bool)
      ensures hasSmallPreviewTooltipBeenShown == small && hasFullPreviewTooltipBeenShown == full
    {
      hasSmallPreviewTooltipBeenShown, hasFullPreviewTooltipBeenShown := small, full;
    }

    method SetHasSmallPreviewTooltipBeenShown(shown: bool)
      modifies this
      ensures hasSmallPreviewTooltipBeenShown == shown
      ensures hasFullPreviewTooltipBeenShown == old(hasFullPreviewTooltipBeenShown)
    {
      hasSmallPreviewTooltipBeenShown := shown;
    }

    method SetHasFullPreviewTooltipBeenShown(shown: bool)
      modifies this
      ensures hasFullPreviewTooltipBeenShown == shown
      ensures hasSmallPreviewTooltipBeenShown == old(hasSmallPreviewTooltipBeenShown)
    {
      hasFullPreviewTooltipBeenShown := shown;
    }
  }

  class WallpaperPreviewRepository {
    const preferences: WallpaperPreferences
    /** The currently selected wallpaper; `None` until one is set. */
    var wallpaperModel: Option<WallpaperModel>
    var hasSmallPreviewTooltipBeenShown: bool
    var hasFullPreviewTooltipBeenShown: bool

    /**
     * Both in-memory flags start from the persisted FULL-preview entry: the
     * small flag is initialised from the full preference, as the source reads it.
     */
    constructor (preferences: WallpaperPreferences)
      ensures this.preferences == preferences
      ensures wallpaperModel == None
      ensures hasSmallPreviewTooltipBeenShown == preferences.hasFullPreviewTooltipBeenShown
      ensures hasFullPreviewTooltipBeenShown == preferences.hasFullPreviewTooltipBeenShown
    {
      this.preferences := preferences;
      wallpaperModel := None;
      hasSmallPreviewTooltipBeenShown := preferences.hasFullPreviewTooltipBeenShown;
      hasFullPreviewTooltipBeenShown := preferences.hasFullPreviewTooltipBeenShown;
    }

    /** Stores the model; the last write wins and the flags are untouched. */
    method SetWallpaperModel(model: WallpaperModel)
      modifies this
      ensures wallpaperModel == Some(model)
      ensures hasSmallPreviewTooltipBeenShown == old(hasSmallPreviewTooltipBeenShown)
      ensures hasFullPreviewTooltipBeenShown == old(hasFullPreviewTooltipBeenShown)
    {
      wallpaperModel := Some(model);
    }

    /** Marks the small tooltip shown in memory and in preferences; the full flag and its preference stay. */
    method HideSmallPreviewTooltip()
      modifies this, preferences
      ensures hasSmallPreviewTooltipBeenShown && preferences.hasSmallPreviewTooltipBeenShown
      ensures hasFullPreviewTooltipBeenShown == old(hasFullPreviewTooltipBeenShown)
      ensures preferences.hasFullPreviewTooltipBeenShown == old(preferences.hasFullPreviewTooltipBeenShown)
      ensures wallpaperModel == old(wallpaperModel)
    {
      hasSmallPreviewTooltipBeenShown := true;
      preferences.SetHasSmallPreviewTooltipBeenShown(true);
    }

    /** Marks the full tooltip shown in memory and in preferences; the small flag and its preference stay. */
    method HideFullPreviewTooltip()
      modifies this, preferences
      ensures hasFullPreviewTooltipBeenShown && preferences.hasFullPreviewTooltipBeenShown
      ensures hasSmallPreviewTooltipBeenShown == old(hasSmallPreviewTooltipBeenShown)
      ensures preferences.hasSmallPreviewTooltipBeenShown == old(preferences.hasSmallPreviewTooltipBeenShown)
      ensures wallpaperModel == old(wallpaperModel)
    {
      hasFullPreviewTooltipBeenShown := true;
      preferences.SetHasFullPreviewTooltipBeenShown(true);
    }
  }

  /**
   * A fresh repository over preferences (small, full) reports `full` for both
   * flags; hiding either tooltip twice leaves the same state as hiding it once,
   * and the last of two `SetWallpaperModel` calls is what is observed.
   */
  method TooltipScenario(small: bool, full: bool, first: WallpaperModel, second: WallpaperModel)
    returns (initialSmall: bool, afterHideSmall: bool, fullKept: bool, observed: Option<WallpaperModel>)
    ensures initialSmall == full
    ensures afterHideSmall
    ensures fullKept == full
    ensures observed == Some(second)
  {
    var prefs := new WallpaperPreferences(small, full);
    var repo := new WallpaperPreviewRepository(prefs);
    initialSmall := repo.hasSmallPreviewTooltipBeenShown;
    repo.HideSmallPreviewTooltip();
    repo.HideSmallPreviewTooltip();
    afterHideSmall := repo.hasSmallPreviewTooltipBeenShown && prefs.hasSmallPreviewTooltipBeenShown;
    fullKept := repo.hasFullPreviewTooltipBeenShown && prefs.hasFullPreviewTooltipBeenShown == full;
    repo.SetWallpaperModel(first);
    repo.SetWallpaperModel(second);
    observed := repo.wallpaperModel;
  }
}
