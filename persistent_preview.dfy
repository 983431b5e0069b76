/**
 * `PersistentWallpaperModelRepository`: an application-wide single slot
 * holding the wallpaper being previewed, cleared when no longer needed.
 */
module PersistentPreview {
  import opened Wrappers
  import opened Wallpapers

  class PersistentWallpaperModelRepository {
    var wallpaperModel: Option<WallpaperModel>

    constructor ()
      ensures wallpaperModel == None
    {
      wallpaperModel := None;
    }

    /** Stores the model, overwriting any previous one. */
    method SetWallpaperModel(model: WallpaperModel)
      modifies this
      ensures wallpaperModel == Some(model)
    {
      wallpaperModel := Some(model);
    }

    /** Empties the slot. */
    method Cleanup()
      modifies this
      ensures wallpaperModel == None
    {
      wallpaperModel := None;
    }
  }

  /**
   * Cleaning up twice is the same as once, and a model set after a cleanup is
   * the one observed.
   */
  method CleanupScenario(first: WallpaperModel, second: WallpaperModel)
    returns (afterCleanup: Option<WallpaperModel>, afterSecondCleanup: Option<WallpaperModel>, afterSet: Option<WallpaperModel>)
    ensures afterCleanup == None && afterSecondCleanup == None
    ensures afterSet == Some(second)
  {
    var repo := new PersistentWallpaperModelRepository();
    repo.SetWallpaperModel(first);
    repo.Cleanup();
    afterCleanup := repo.wallpaperModel;
    repo.Cleanup();
    afterSecondCleanup := repo.wallpaperModel;
    repo.SetWallpaperModel(second);
    afterSet := repo.wallpaperModel;
  }
}
