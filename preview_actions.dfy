/**
 * `PreviewActionsInteractor`, download part only: it passes the repositories'
 * models through and couples a successful download to the preview repository.
 */
module PreviewActions {
  import opened Wrappers
  import opened Wallpapers
  import opened Download
  import PreviewRepository

  class PreviewActionsInteractor {
    const wallpaperPreviewRepository: PreviewRepository.WallpaperPreviewRepository
    const downloadableWallpaperRepository: DownloadableWallpaperRepository

    constructor (preview: PreviewRepository.WallpaperPreviewRepository, downloadable: DownloadableWallpaperRepository)
      ensures wallpaperPreviewRepository == preview && downloadableWallpaperRepository == downloadable
    {
      wallpaperPreviewRepository, downloadableWallpaperRepository := preview, downloadable;
    }

    /** `wallpaperModel`: the preview repository's model, unchanged. */
    function WallpaperModel(): (r: Option<Wallpapers.WallpaperModel>)
      reads this, wallpaperPreviewRepository
      ensures r == wallpaperPreviewRepository.wallpaperModel
    {
      wallpaperPreviewRepository.wallpaperModel
    }

    /** `downloadableWallpaperModel`: the download repository's observed model, unchanged. */
    function DownloadableWallpaperModel(): (r: Download.DownloadableWallpaperModel)
      reads this, downloadableWallpaperRepository, downloadableWallpaperRepository.downloader
      ensures r == downloadableWallpaperRepository.DownloadableModel()
    {
      downloadableWallpaperRepository.DownloadableModel()
    }

    /**
     * Starts a download whose success callback stores the downloaded live
     * wallpaper in the preview repository.
     */
    method DownloadWallpaper()
      modifies downloadableWallpaperRepository, downloadableWallpaperRepository.downloader
      ensures downloadableWallpaperRepository.state == InProgress
      ensures var l := downloadableWallpaperRepository.downloader.listener;
              l != null && fresh(l) && l.repository == downloadableWallpaperRepository &&
              l.onDownloaded == wallpaperPreviewRepository
      ensures downloadableWallpaperRepository.downloader.isDownloaderReady ==
              old(downloadableWallpaperRepository.downloader.isDownloaderReady)
      ensures downloadableWallpaperRepository.downloader.cancelCalled ==
              old(downloadableWallpaperRepository.downloader.cancelCalled)
    {
      downloadableWallpaperRepository.DownloadWallpaper(wallpaperPreviewRepository);
    }

    /** Returns what the download repository returns. */
    method CancelDownloadWallpaper() returns (cancelled: bool)
      modifies downloadableWallpaperRepository.downloader
      ensures cancelled == downloadableWallpaperRepository.downloader.cancelAnswer
      ensures downloadableWallpaperRepository.downloader.cancelCalled
      ensures downloadableWallpaperRepository.state == old(downloadableWallpaperRepository.state)
      ensures downloadableWallpaperRepository.downloader.isDownloaderReady ==
              old(downloadableWallpaperRepository.downloader.isDownloaderReady)
      ensures downloadableWallpaperRepository.downloader.listener ==
              old(downloadableWallpaperRepository.downloader.listener)
    {
      cancelled := downloadableWallpaperRepository.CancelDownloadWallpaper();
    }
  }

  /**
   * A full run through the interactor: NOT_AVAILABLE, READY_TO_DOWNLOAD,
   * DOWNLOADING, DOWNLOADED(w); afterwards the preview repository holds the
   * downloaded live wallpaper.
   */
  method SuccessfulRun(w: LiveWallpaperModel) returns (trace: seq<Download.DownloadableWallpaperModel>, previewed: Option<Wallpapers.WallpaperModel>)
    ensures trace == [NotAvailable, Ready, InProgress, Download.DownloadableWallpaperModel(Downloaded, Some(w))]
    ensures previewed == Some(Live(w))
  {
    var prefs := new PreviewRepository.WallpaperPreferences(false, false);
    var preview := new PreviewRepository.WallpaperPreviewRepository(prefs);
    var downloader := new LiveWallpaperDownloader(false);
    var downloadable := new DownloadableWallpaperRepository(downloader);
    var interactor := new PreviewActionsInteractor(preview, downloadable);
    trace := [interactor.DownloadableWallpaperModel()];
    downloader.InitiateDownloadableService();
    trace := trace + [interactor.DownloadableWallpaperModel()];
    interactor.DownloadWallpaper();
    trace := trace + [interactor.DownloadableWallpaperModel()];
    downloader.ProceedToDownloadSuccess(w);
    trace := trace + [interactor.DownloadableWallpaperModel()];
    previewed := interactor.WallpaperModel();
  }

  /** A failed download leaves the previewed wallpaper as it was and the state at READY_TO_DOWNLOAD. */
  method FailedRun(current: Wallpapers.WallpaperModel) returns (observed: Download.DownloadableWallpaperModel, previewed: Option<Wallpapers.WallpaperModel>)
    ensures observed == Ready
    ensures previewed == Some(current)
  {
    var prefs := new PreviewRepository.WallpaperPreferences(false, false);
    var preview := new PreviewRepository.WallpaperPreviewRepository(prefs);
    preview.SetWallpaperModel(current);
    var downloader := new LiveWallpaperDownloader(false);
    var downloadable := new DownloadableWallpaperRepository(downloader);
    var interactor := new PreviewActionsInteractor(preview, downloadable);
    downloader.InitiateDownloadableService();
    interactor.DownloadWallpaper();
    downloader.ProceedToDownloadFailed();
    observed := interactor.DownloadableWallpaperModel();
    previewed := interactor.WallpaperModel();
  }
}
