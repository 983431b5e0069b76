/**
 * `DownloadableWallpaperRepository`: the download state machine of a
 * downloadable live wallpaper, observed through the downloader's readiness.
 * The downloader is the stand-in the tests use: a readiness flag, the one
 * listener it was last given, and a fixed answer to cancellation.
 */
module Download {
  import opened Wrappers
  import opened Wallpapers
  import PreviewRepository

  datatype DownloadStatus = DownloadNotAvailable | ReadyToDownload | Downloading | Downloaded

  datatype DownloadableWallpaperModel = DownloadableWallpaperModel(status: DownloadStatus, wallpaper: Option<LiveWallpaperModel>)

  const NotAvailable := DownloadableWallpaperModel(DownloadNotAvailable, None)
  const Ready := DownloadableWallpaperModel(ReadyToDownload, None)
  const InProgress := DownloadableWallpaperModel(Downloading, None)

  /** The states the repository itself can hold: never "not available", and a wallpaper exactly when downloaded. */
  predicate Consistent(m: DownloadableWallpaperModel) {
    m.status != DownloadNotAvailable && (m.status == Downloaded <==> m.wallpaper.Some?)
  }

  /** The observed model: the internal state once the downloader is ready, "not available" before. */
  function Observe(model: DownloadableWallpaperModel, isReady: bool): (r: DownloadableWallpaperModel)
  {
    if isReady then model else NotAvailable
  }

  /**
   * Over a consistent internal state, the observed status is "not available"
   * exactly when the downloader is not ready, and the observed wallpaper is
   * present exactly when the observed status is DOWNLOADED.
   */
  lemma ObserveNotAvailableIffNotReady(model: DownloadableWallpaperModel, isReady: bool)
    requires Consistent(model)
    ensures Observe(model, isReady).status == DownloadNotAvailable <==> !isReady
    ensures Observe(model, isReady).wallpaper.Some? <==> Observe(model, isReady).status == Downloaded
    ensures isReady ==> Consistent(Observe(model, isReady))
  {
  }

  /** The stand-in downloader (see the fake downloader of the tests). */
  class LiveWallpaperDownloader {
    var isDownloaderReady: bool
    var listener: DownloadListener?
    const cancelAnswer: bool
    var cancelCalled: bool

    constructor (cancelAnswer: bool)
      ensures !isDownloaderReady && listener == null && !cancelCalled
      ensures this.cancelAnswer == cancelAnswer
    {
      isDownloaderReady, listener, cancelCalled := false, null, false;
      this.cancelAnswer := cancelAnswer;
    }

    method InitiateDownloadableService()
      modifies this
      ensures isDownloaderReady
      ensures listener == old(listener) && cancelCalled == old(cancelCalled)
    {
      isDownloaderReady := true;
    }

    /** Remembers the listener; the outcome is reported later. */
    method DownloadWallpaper(l: DownloadListener)
      modifies this
      ensures listener == l
      ensures isDownloaderReady == old(isDownloaderReady) && cancelCalled == old(cancelCalled)
    {
      listener := l;
    }

    method CancelDownloadWallpaper() returns (cancelled: bool)
      modifies this
      ensures cancelled == cancelAnswer && cancelCalled
      ensures isDownloaderReady == old(isDownloaderReady) && listener == old(listener)
    {
      cancelCalled := true;
      cancelled := cancelAnswer;
    }

    /** Reports success to the stored listener, if there is one. */
    method ProceedToDownloadSuccess(w: LiveWallpaperModel)
      modifies if listener == null then {} else {listener.repository, listener.onDownloaded}
      ensures listener == old(listener) && isDownloaderReady == old(isDownloaderReady)
      ensures listener != null ==> listener.repository.state == DownloadableWallpaperModel(Downloaded, Some(w))
      ensures listener != null && listener.onDownloaded != null ==>
                listener.onDownloaded.wallpaperModel == Some(Live(w))
    {
      if listener != null {
        listener.OnDownloadSuccess(w);
      }
    }

    /** Reports failure to the stored listener, if there is one. */
    method ProceedToDownloadFailed()
      modifies if listener == null then {} else {listener.repository}
      ensures listener == old(listener) && isDownloaderReady == old(isDownloaderReady)
      ensures listener != null ==> listener.repository.state == Ready
    {
      if listener != null {
        listener.OnDownloadFailed();
      }
    }
  }

  /**
   * The listener `downloadWallpaper` hands to the downloader. `onDownloaded`
   * is the preview repository the caller's success callback writes, or null
   * for a callback that does nothing.
   */
  class DownloadListener {
    const repository: DownloadableWallpaperRepository
    const onDownloaded: PreviewRepository.WallpaperPreviewRepository?

    constructor (repository: DownloadableWallpaperRepository, onDownloaded: PreviewRepository.WallpaperPreviewRepository?)
      ensures this.repository == repository && this.onDownloaded == onDownloaded
    {
      this.repository, this.onDownloaded := repository, onDownloaded;
    }

    /** The callback first receives the model, then the state becomes DOWNLOADED with it. */
    method OnDownloadSuccess(w: LiveWallpaperModel)
      modifies repository, onDownloaded
      ensures repository.state == DownloadableWallpaperModel(Downloaded, Some(w))
      ensures onDownloaded != null ==> onDownloaded.wallpaperModel == Some(Live(w))
      ensures onDownloaded != null ==>
                onDownloaded.hasSmallPreviewTooltipBeenShown == old(onDownloaded.hasSmallPreviewTooltipBeenShown) &&
                onDownloaded.hasFullPreviewTooltipBeenShown == old(onDownloaded.hasFullPreviewTooltipBeenShown)
    {
      if onDownloaded != null {
        onDownloaded.SetWallpaperModel(Live(w));
      }
      repository.state := DownloadableWallpaperModel(Downloaded, Some(w));
    }

    /** A failure returns the state to READY_TO_DOWNLOAD, so the download can be retried. */
    method OnDownloadFailed()
      modifies repository
      ensures repository.state == Ready
    {
      repository.state := Ready;
    }
  }

  class DownloadableWallpaperRepository {
    const downloader: LiveWallpaperDownloader
    /** The internal `_downloadableWallpaperModel`. */
    var state: DownloadableWallpaperModel

    ghost predicate Valid()
      reads this
    {
      Consistent(state)
    }

    /** `downloadableWallpaperModel`: the latest state combined with the latest readiness. */
    function DownloadableModel(): (r: DownloadableWallpaperModel)
      reads this, downloader
      ensures downloader.isDownloaderReady ==> r == state
      ensures !downloader.isDownloaderReady ==> r == NotAvailable
    {
      Observe(state, downloader.isDownloaderReady)
    }

    constructor (downloader: LiveWallpaperDownloader)
      ensures this.downloader == downloader
      ensures state == Ready && Valid()
    {
      this.downloader := downloader;
      state := Ready;
    }

    /** Moves to DOWNLOADING and hands a fresh listener to the downloader. */
    method DownloadWallpaper(onDownloaded: PreviewRepository.WallpaperPreviewRepository?)
      modifies this, downloader
      ensures state == InProgress && Valid()
      ensures downloader.listener != null && fresh(downloader.listener)
      ensures downloader.listener.repository == this && downloader.listener.onDownloaded == onDownloaded
      ensures downloader.isDownloaderReady == old(downloader.isDownloaderReady)
      ensures downloader.cancelCalled == old(downloader.cancelCalled)
    {
      state := InProgress;
      var l := new DownloadListener(this, onDownloaded);
      downloader.DownloadWallpaper(l);
    }

    /** Returns the downloader's answer and leaves the state as it was. */
    method CancelDownloadWallpaper() returns (cancelled: bool)
      modifies downloader
      ensures cancelled == downloader.cancelAnswer && downloader.cancelCalled
      ensures state == old(state)
      ensures downloader.isDownloaderReady == old(downloader.isDownloaderReady)
      ensures downloader.listener == old(downloader.listener)
    {
      cancelled := downloader.CancelDownloadWallpaper();
    }
  }

  /**
   * The observed sequence of a failed download followed by a retry that
   * succeeds: a failure hands control back to READY_TO_DOWNLOAD.
   */
  method FailThenRetry(w: LiveWallpaperModel) returns (trace: seq<DownloadableWallpaperModel>)
    ensures trace == [NotAvailable, Ready, InProgress, Ready, InProgress,
                      DownloadableWallpaperModel(Downloaded, Some(w))]
  {
    var downloader := new LiveWallpaperDownloader(false);
    var repo := new DownloadableWallpaperRepository(downloader);
    trace := [repo.DownloadableModel()];
    downloader.InitiateDownloadableService();
    trace := trace + [repo.DownloadableModel()];
    repo.DownloadWallpaper(null);
    trace := trace + [repo.DownloadableModel()];
    downloader.ProceedToDownloadFailed();
    trace := trace + [repo.DownloadableModel()];
    repo.DownloadWallpaper(null);
    trace := trace + [repo.DownloadableModel()];
    downloader.ProceedToDownloadSuccess(w);
    trace := trace + [repo.DownloadableModel()];
  }

  /** Cancelling reports the downloader's answer and leaves the observed state at DOWNLOADING. */
  method CancelScenario(answer: bool) returns (cancelled: bool, observed: DownloadableWallpaperModel, called: bool)
    ensures cancelled == answer && called
    ensures observed == InProgress
  {
    var downloader := new LiveWallpaperDownloader(answer);
    var repo := new DownloadableWallpaperRepository(downloader);
    downloader.InitiateDownloadableService();
    repo.DownloadWallpaper(null);
    cancelled := repo.CancelDownloadWallpaper();
    observed := repo.DownloadableModel();
    called := downloader.cancelCalled;
  }
}
