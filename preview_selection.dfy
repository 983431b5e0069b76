/**
 * `BasePreviewInteractor.wallpapers`: a previewed wallpaper, when set,
 * overrides the current home/lock pair on both screens.
 */
module PreviewSelection {
  import opened Wrappers
  import opened Wallpapers

  /** The combine rule over the latest preview value and the latest current pair. */
  function PreviewWallpapers(previewing: Option<WallpaperModel>, current: WallpaperModelsPair): (r: WallpaperModelsPair)
  {
    if previewing.Some? then WallpaperModelsPair(previewing.value, None) else current
  }

  /**
   * With a preview set, the result is (preview, null) whatever the current
   * pair; without one, the current pair passes through unchanged. So the lock
   * slot is empty whenever a preview is set, and the home slot is always
   * either the preview or the current home wallpaper.
   */
  lemma WallpapersOverride(previewing: Option<WallpaperModel>, current: WallpaperModelsPair, other: WallpaperModelsPair)
    ensures previewing.Some? ==> PreviewWallpapers(previewing, current) == PreviewWallpapers(previewing, other)
    ensures previewing.Some? ==> PreviewWallpapers(previewing, current).lockWallpaper == None
    ensures previewing.Some? ==> PreviewWallpapers(previewing, current).homeWallpaper == previewing.value
    ensures previewing.None? ==> PreviewWallpapers(previewing, current) == current
    ensures PreviewWallpapers(previewing, current).homeWallpaper in
              (if previewing.Some? then {previewing.value} else {current.homeWallpaper})
  {
  }
}
