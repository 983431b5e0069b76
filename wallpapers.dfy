/**
 * Value types shared by the preview layer: wallpaper models (the sealed
 * `WallpaperModel` hierarchy), the home/lock pair, screens and colours.
 * Platform objects (WallpaperInfo, bitmaps, assets) are reduced to the
 * identifiers the preview logic compares.
 */
module Wallpapers {
  import opened Wrappers

  /** `android.graphics.Point`, used as a display size. */
  datatype Point = Point(x: int, y: int)

  /** `android.graphics.Rect`, used as a crop hint. */
  datatype Rect = Rect(left: int, top: int, right: int, bottom: int)

  /** Crop geometry computed for a preview surface (the float zoom is not modelled). */
  datatype CropSizeModel = CropSizeModel(hostViewSize: Point, cropViewSize: Point)

  /** A crop hint for one display size, with the optional crop geometry. */
  datatype FullPreviewCropModel = FullPreviewCropModel(cropHint: Rect, cropSizeModel: Option<CropSizeModel>)

  datatype StaticWallpaperModel = StaticWallpaperModel(
    wallpaperId: string,
    collectionId: string,
    cropHints: Option<map<Point, Rect>>)

  datatype LiveWallpaperModel = LiveWallpaperModel(wallpaperId: string, collectionId: string)

  /** The sealed class `WallpaperModel`: a static or a live wallpaper. */
  datatype WallpaperModel = Static(staticModel: StaticWallpaperModel) | Live(liveModel: LiveWallpaperModel)

  /** `WallpaperModelsPair`: the home wallpaper and, when it differs, the lock wallpaper. */
  datatype WallpaperModelsPair = WallpaperModelsPair(homeWallpaper: WallpaperModel, lockWallpaper: Option<WallpaperModel>)

  datatype Screen = HomeScreen | LockScreen

  /** `WallpaperConnection.WhichPreview`. */
  datatype WhichPreview = PreviewCurrent | EditCurrent | EditNonCurrent

  /** `android.app.WallpaperColors`, reduced to an opaque identity. */
  datatype WallpaperColors = WallpaperColors(id: int)

  /** `WallpaperColorsModel`: colours still loading, or loaded (possibly null). */
  datatype WallpaperColorsModel = Loading | Loaded(colors: Option<WallpaperColors>)
}
