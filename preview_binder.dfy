/**
 * `WallpaperPreviewBinder`: for each emission of wallpapers and
 * which-preview, the surface of a HOME or LOCK screen picks a wallpaper and,
 * for a static one, the static view-model to bind; destroying the surface
 * cancels the collecting job. The engine connection and view inflation are
 * platform work and are represented only by the action chosen.
 */
module PreviewBinder {
  import opened Wrappers
  import opened Wallpapers
  import PreviewSelection
  import StaticPreview
  import PreviewViewModel

  /** The wallpaper a screen shows: HOME the home wallpaper, LOCK the lock one or else the home one. */
  function SelectWallpaper(screen: Screen, wallpapers: WallpaperModelsPair): (r: WallpaperModel)
  {
    if screen == HomeScreen then wallpapers.homeWallpaper
    else if wallpapers.lockWallpaper.Some? then wallpapers.lockWallpaper.value
    else wallpapers.homeWallpaper
  }

  datatype StaticViewModelChoice = HomeStaticViewModel | LockStaticViewModel

  /** The lock static view-model serves only a LOCK screen with a separate lock wallpaper. */
  function SelectStaticViewModel(screen: Screen, wallpapers: WallpaperModelsPair): (r: StaticViewModelChoice)
  {
    if screen == LockScreen && wallpapers.lockWallpaper.Some? then LockStaticViewModel else HomeStaticViewModel
  }

  /** The screen a static view-model was created for. */
  function ScreenOf(choice: StaticViewModelChoice): Screen {
    if choice == LockStaticViewModel then LockScreen else HomeScreen
  }

  datatype SurfaceAction =
    | ConnectEngine(live: LiveWallpaperModel, whichPreview: WhichPreview, screen: Screen)
    | BindStatic(viewModel: StaticViewModelChoice)

  /** The work done for one collected emission: the engine-connect path or the static-preview path. */
  function OnEmission(screen: Screen, emission: PreviewViewModel.WallpapersAndWhich): (r: SurfaceAction)
  {
    var wallpaper := SelectWallpaper(screen, emission.wallpapers);
    match wallpaper
    case Live(live) => ConnectEngine(live, emission.whichPreview, screen)
    case Static(_) => BindStatic(SelectStaticViewModel(screen, emission.wallpapers))
  }

  /**
   * HOME shows the home wallpaper; LOCK shows the lock wallpaper when there
   * is one and the home wallpaper otherwise; the lock static view-model is
   * chosen exactly for LOCK with a lock wallpaper.
   */
  lemma SelectionRules(screen: Screen, wallpapers: WallpaperModelsPair)
    ensures screen == HomeScreen ==> SelectWallpaper(screen, wallpapers) == wallpapers.homeWallpaper
    ensures screen == LockScreen && wallpapers.lockWallpaper.Some? ==> SelectWallpaper(screen, wallpapers) == wallpapers.lockWallpaper.value
    ensures screen == LockScreen && wallpapers.lockWallpaper.None? ==> SelectWallpaper(screen, wallpapers) == wallpapers.homeWallpaper
    ensures SelectStaticViewModel(screen, wallpapers) == LockStaticViewModel <==>
              screen == LockScreen && wallpapers.lockWallpaper.Some?
  {
  }

  /** A live wallpaper takes the engine path with the emitted which-preview; a static one the static path. */
  lemma EmissionPaths(screen: Screen, emission: PreviewViewModel.WallpapersAndWhich)
    ensures OnEmission(screen, emission).ConnectEngine? <==> SelectWallpaper(screen, emission.wallpapers).Live?
    ensures OnEmission(screen, emission).ConnectEngine? ==>
              Live(OnEmission(screen, emission).live) == SelectWallpaper(screen, emission.wallpapers) &&
              OnEmission(screen, emission).whichPreview == emission.whichPreview &&
              OnEmission(screen, emission).screen == screen
    ensures OnEmission(screen, emission).BindStatic? ==>
              OnEmission(screen, emission).viewModel == SelectStaticViewModel(screen, emission.wallpapers)
  {
  }

  /** With a preview set, both screens show the preview and bind through the home static view-model. */
  lemma PreviewShownOnBothScreens(preview: WallpaperModel, current: WallpaperModelsPair, screen: Screen)
    ensures SelectWallpaper(screen, PreviewSelection.PreviewWallpapers(Some(preview), current)) == preview
    ensures SelectStaticViewModel(screen, PreviewSelection.PreviewWallpapers(Some(preview), current)) == HomeStaticViewModel
  {
  }

  /**
   * Whenever the binder binds a static wallpaper, the static view-model it
   * picks emits exactly that wallpaper's static model.
   */
  lemma {:induction false} ChosenViewModelShowsChosenWallpaper(screen: Screen, wallpapers: WallpaperModelsPair)
    requires SelectWallpaper(screen, wallpapers).Static?
    ensures StaticPreview.StaticWallpaperModelFor(ScreenOf(SelectStaticViewModel(screen, wallpapers)), wallpapers)
            == Some(SelectWallpaper(screen, wallpapers).staticModel)
  {
    if screen == LockScreen && wallpapers.lockWallpaper.Some? {
      assert SelectStaticViewModel(screen, wallpapers) == LockStaticViewModel;
    } else {
      assert SelectStaticViewModel(screen, wallpapers) == HomeStaticViewModel;
      assert SelectWallpaper(screen, wallpapers) == wallpapers.homeWallpaper;
    }
  }

  /** A collecting coroutine, reduced to whether it was cancelled. */
  class Job {
    var cancelled: bool

    constructor ()
      ensures !cancelled
    {
      cancelled := false;
    }

    method Cancel()
      modifies this
      ensures cancelled
    {
      cancelled := true;
    }
  }

  /** The surface callback `bindSurface` returns: it owns the current collecting job. */
  class SurfaceCallback {
    const screen: Screen
    var job: Job?

    constructor (screen: Screen)
      ensures this.screen == screen && job == null
    {
      this.screen := screen;
      job := null;
    }

    /** Launches a new collecting job; an earlier job is replaced, not cancelled. */
    method SurfaceCreated()
      modifies this
      ensures job != null && fresh(job) && !job.cancelled
    {
      job := new Job();
    }

    /** Cancels the collecting job, if any, and forgets it. */
    method SurfaceDestroyed()
      modifies this, job
      ensures job == null
      ensures old(job) != null ==> old(job).cancelled
    {
      if job != null {
        job.Cancel();
      }
      job := null;
    }
  }

  /** Creating then destroying the surface leaves no job and the launched job cancelled. */
  method SurfaceLifecycle(screen: Screen) returns (launchedCancelled: bool, cleared: bool)
    ensures launchedCancelled && cleared
  {
    var callback := new SurfaceCallback(screen);
    callback.SurfaceCreated();
    var launched := callback.job;
    callback.SurfaceDestroyed();
    launchedCancelled := launched.cancelled;
    cleared := callback.job == null;
  }
}
