# WallpaperPicker2 preview and category core, in Dafny

This project models the core of the WallpaperPicker2 application:

- **Preview data layer.** The repositories that hold the previewed wallpaper and the tooltip flags. The downloadable-wallpaper repository with its download listener and the downloader it drives. The actions interactor that wires a finished download back into the preview. The persistent preview repository. The base preview interactor and view model, which gate wallpapers on the selected preview and apply the wallpaper-colour timeout. The static preview view model's crop-hint bookkeeping. The surface callback that binds a preview to a screen.
- **Category pipeline.** The category repository's five fetch steps and how each handles errors. The interactor that combines categories into an insertion-ordered set. The legacy category wrapper with its memoised id map. The categories view model's sections and tile clicks.
- **Small utilities and UI state.** Deep-link recognition and collection-id extraction. The network-status repository's reconnect signal. The floating tab toolbar, its list adapter, the adapter's view-holder lifecycle and the tab item animator. The customization surface view's fixed-size transition.

How the model is built:

- There is one Dafny module per source file, plus `Wrappers` (`Option`, and `Outcome` for calls that can throw) and `Wallpapers` (shared wallpaper value types).
- Objects whose fields the source updates in place are classes. Their methods state the whole new state with `old`.
- Kotlin flows are modelled as their latest value. A `combine`, `zip` or `map` stage becomes a function of the latest inputs.
- The category repository's steps are state functions over `RepositoryState`. Each method is proved equal to its step, and the lemmas about the steps carry the properties.
- Kotlin's `toSet()` and `set + element` build `LinkedHashSet`s. They are modelled as duplicate-free sequences in insertion order (`Dedup`, `AddIfAbsent`).
- `associateBy` is modelled as a left fold in which a later duplicate key overwrites an earlier one.
- Calls into code outside the core become parameters:
  - the category client is a record of `Outcome` answers;
  - the category factory is a function that may throw (`None`);
  - the icon size is a number;
  - the notifier's status is a field the test sets.

## Model

| member | source | states |
|---|---|---|
| Download.ObserveNotAvailableIffNotReady | src/com/android/wallpaper/picker/preview/data/repository/DownloadableWallpaperRepository.kt:42-52 | Consistent internal state: observed status is DOWNLOAD_NOT_AVAILABLE exactly when the downloader is not ready; the observed wallpaper is present exactly when DOWNLOADED; once ready the observation keeps the invariant |
| Download.DownloadableWallpaperRepository.DownloadableModel | src/com/android/wallpaper/picker/preview/data/repository/DownloadableWallpaperRepository.kt:40-52 | While the downloader is not ready the observed model is (DOWNLOAD_NOT_AVAILABLE, null); once ready it is the internal state |
| Download.DownloadableWallpaperRepository.constructor | src/com/android/wallpaper/picker/preview/data/repository/DownloadableWallpaperRepository.kt:40-41 | Internal state starts as (READY_TO_DOWNLOAD, null) and satisfies the DOWNLOADED-iff-wallpaper invariant |
| Download.DownloadableWallpaperRepository.DownloadWallpaper | src/com/android/wallpaper/picker/preview/data/repository/DownloadableWallpaperRepository.kt:54-70 | State becomes (DOWNLOADING, null) before any outcome; the downloader holds a fresh listener bound to this repository and to the given callback |
| Download.DownloadListener.OnDownloadSuccess | src/com/android/wallpaper/picker/preview/data/repository/DownloadableWallpaperRepository.kt:58-62 | The callback's preview repository receives the live wallpaper, then the state becomes (DOWNLOADED, wallpaper) |
| Download.DownloadListener.OnDownloadFailed | src/com/android/wallpaper/picker/preview/data/repository/DownloadableWallpaperRepository.kt:64-67 | The state returns to (READY_TO_DOWNLOAD, null) |
| Download.DownloadableWallpaperRepository.CancelDownloadWallpaper | src/com/android/wallpaper/picker/preview/data/repository/DownloadableWallpaperRepository.kt:72-74 | Returns the downloader's answer and leaves the state unchanged |
| Download.LiveWallpaperDownloader.InitiateDownloadableService | tests/common/src/com/android/wallpaper/testing/FakeLiveWallpaperDownloader.kt:56-62 | The downloader becomes ready; the stored listener is kept |
| Download.LiveWallpaperDownloader.DownloadWallpaper | tests/common/src/com/android/wallpaper/testing/FakeLiveWallpaperDownloader.kt:66-72 | Stores the listener, nothing else |
| Download.LiveWallpaperDownloader.CancelDownloadWallpaper | tests/common/src/com/android/wallpaper/testing/FakeLiveWallpaperDownloader.kt:74-79 | Records the call and returns the configured answer |
| Download.LiveWallpaperDownloader.ProceedToDownloadSuccess | tests/common/src/com/android/wallpaper/testing/FakeLiveWallpaperDownloader.kt:37-39 | The stored listener, if any, runs its success callback |
| Download.LiveWallpaperDownloader.ProceedToDownloadFailed | tests/common/src/com/android/wallpaper/testing/FakeLiveWallpaperDownloader.kt:41-43 | The stored listener, if any, runs its failure callback |
| Download.FailThenRetry | tests/robotests/src/com/android/wallpaper/picker/preview/data/repository/DownloadableWallpaperRepositoryTest.kt:77-106 | Observed trace NOT_AVAILABLE, READY, DOWNLOADING, READY (failure), DOWNLOADING, DOWNLOADED(w): a failed download can be retried |
| Download.CancelScenario | tests/robotests/src/com/android/wallpaper/picker/preview/data/repository/DownloadableWallpaperRepositoryTest.kt:108-117 | Cancelling while downloading returns the downloader's answer, marks the call, and leaves DOWNLOADING observed |
| PreviewActions.PreviewActionsInteractor.WallpaperModel | src/com/android/wallpaper/picker/preview/domain/interactor/PreviewActionsInteractor.kt:43-44 | The preview repository's stored model, unchanged |
| PreviewActions.PreviewActionsInteractor.DownloadableWallpaperModel | src/com/android/wallpaper/picker/preview/domain/interactor/PreviewActionsInteractor.kt:45-46 | The download repository's observed model, unchanged |
| PreviewActions.PreviewActionsInteractor.DownloadWallpaper | src/com/android/wallpaper/picker/preview/domain/interactor/PreviewActionsInteractor.kt:72-78 | State becomes DOWNLOADING and the installed listener writes success into the preview repository |
| PreviewActions.PreviewActionsInteractor.CancelDownloadWallpaper | src/com/android/wallpaper/picker/preview/domain/interactor/PreviewActionsInteractor.kt:80-81 | Returns the repository's (downloader's) answer; state unchanged |
| PreviewActions.SuccessfulRun | tests/robotests/src/com/android/wallpaper/picker/preview/domain/interactor/PreviewActionsInteractorTest.kt:97-131 | A full run is observed as NOT_AVAILABLE, READY, DOWNLOADING, DOWNLOADED(w), and the preview repository then holds the live wallpaper w |
| PreviewActions.FailedRun | src/com/android/wallpaper/picker/preview/domain/interactor/PreviewActionsInteractor.kt:72-78 | A failed download leaves the preview repository's model as it was and the state READY_TO_DOWNLOAD |
| PreviewRepository.WallpaperPreferences.SetHasSmallPreviewTooltipBeenShown | src/com/android/wallpaper/picker/preview/data/repository/WallpaperPreviewRepository.kt:45-48 | Writes the small preference only |
| PreviewRepository.WallpaperPreferences.SetHasFullPreviewTooltipBeenShown | src/com/android/wallpaper/picker/preview/data/repository/WallpaperPreviewRepository.kt:55-58 | Writes the full preference only |
| PreviewRepository.WallpaperPreviewRepository.constructor | src/com/android/wallpaper/picker/preview/data/repository/WallpaperPreviewRepository.kt:33-51 | Model starts null; BOTH in-memory flags start from the persisted FULL preference, as written |
| PreviewRepository.WallpaperPreviewRepository.SetWallpaperModel | src/com/android/wallpaper/picker/preview/data/repository/WallpaperPreviewRepository.kt:36-38 | Stores the argument; the flags are untouched |
| PreviewRepository.WallpaperPreviewRepository.HideSmallPreviewTooltip | src/com/android/wallpaper/picker/preview/data/repository/WallpaperPreviewRepository.kt:45-48 | Small flag and small preference become true; full flag, full preference and model unchanged |
| PreviewRepository.WallpaperPreviewRepository.HideFullPreviewTooltip | src/com/android/wallpaper/picker/preview/data/repository/WallpaperPreviewRepository.kt:55-58 | Full flag and full preference become true; small flag, small preference and model unchanged |
| PreviewRepository.TooltipScenario | tests/robotests/src/com/android/wallpaper/picker/preview/data/repository/WallpaperPreviewRepositoryTest.kt:67-104 | Initial small flag equals the full preference; hiding the small tooltip keeps the full flag; the last of two writes is observed |
| PersistentPreview.PersistentWallpaperModelRepository.constructor | src/com/android/wallpaper/picker/common/preview/data/repository/PersistentWallpaperModelRepository.kt:33 | The model starts null |
| PersistentPreview.PersistentWallpaperModelRepository.SetWallpaperModel | src/com/android/wallpaper/picker/common/preview/data/repository/PersistentWallpaperModelRepository.kt:36-38 | Stores the argument, overwriting any previous value |
| PersistentPreview.PersistentWallpaperModelRepository.Cleanup | src/com/android/wallpaper/picker/common/preview/data/repository/PersistentWallpaperModelRepository.kt:40-42 | Resets the model to null |
| PersistentPreview.CleanupScenario | src/com/android/wallpaper/picker/common/preview/data/repository/PersistentWallpaperModelRepository.kt:36-42 | Cleanup is idempotent and a set after cleanup is observed |
| PreviewSelection.WallpapersOverride | src/com/android/wallpaper/picker/common/preview/domain/interactor/BasePreviewInteractor.kt:44-52 | With a preview: (preview, null) whatever the current pair; without: the current pair unchanged |
| PreviewViewModel.GateEmitsIffBothPresent | src/com/android/wallpaper/picker/common/preview/ui/viewmodel/BasePreviewViewModel.kt:68-87 | Emits exactly when both wallpapers and which-preview are present, and then carries both |
| PreviewViewModel.TimeoutNeverOverwrites | src/com/android/wallpaper/picker/common/preview/ui/viewmodel/BasePreviewViewModel.kt:97-104 | The timeout yields a loaded value, writes Loaded(null) only over Loading, never replaces a set value, and is idempotent |
| PreviewViewModel.BasePreviewViewModel.constructor | src/com/android/wallpaper/picker/common/preview/ui/viewmodel/BasePreviewViewModel.kt:68-98 | Which-preview and wallpapers null, colour preview off, colours Loading |
| PreviewViewModel.BasePreviewViewModel.WallpapersAndWhichPreview | src/com/android/wallpaper/picker/common/preview/ui/viewmodel/BasePreviewViewModel.kt:83-87 | The gated pair of the latest wallpapers and which-preview |
| PreviewViewModel.BasePreviewViewModel.SetWhichPreview | src/com/android/wallpaper/picker/common/preview/ui/viewmodel/BasePreviewViewModel.kt:72-74 | Overwrites which-preview only |
| PreviewViewModel.BasePreviewViewModel.OnWallpapersEmitted | src/com/android/wallpaper/picker/common/preview/ui/viewmodel/BasePreviewViewModel.kt:76-81 | Wallpapers become the interactor's preview-over-current choice |
| PreviewViewModel.BasePreviewViewModel.SetIsWallpaperColorPreviewEnabled | src/com/android/wallpaper/picker/common/preview/ui/viewmodel/BasePreviewViewModel.kt:90-95 | Stores the flag only |
| PreviewViewModel.BasePreviewViewModel.SetWallpaperConnectionColors | src/com/android/wallpaper/picker/common/preview/ui/viewmodel/BasePreviewViewModel.kt:107-109 | Overwrites the colours unconditionally |
| PreviewViewModel.BasePreviewViewModel.OnColorsTimeout | src/com/android/wallpaper/picker/common/preview/ui/viewmodel/BasePreviewViewModel.kt:99-104 | Colours become the timeout result of the old colours |
| PreviewViewModel.PreviewScenario | src/com/android/wallpaper/picker/common/preview/ui/viewmodel/BasePreviewViewModel.kt:68-109 | Nothing emitted until both inputs are set; a set colour survives the timeout; an unset one times out to Loaded(null) |
| StaticPreview.StaticWallpaperModelSelection | tests/robotests/src/com/android/wallpaper/picker/common/preview/ui/viewmodel/StaticPreviewViewModelTest.kt:140-285 | HOME gets the home static model, LOCK the lock static model, LOCK with no lock wallpaper gets null, a live wallpaper gets null |
| StaticPreview.CropModelsOf | tests/robotests/src/com/android/wallpaper/picker/common/preview/ui/viewmodel/StaticPreviewViewModelTest.kt:288-339 | One crop model per display size of the loaded hints, with no crop-size model |
| StaticPreview.CropModelsOfSingle | tests/robotests/src/com/android/wallpaper/picker/common/preview/ui/viewmodel/StaticPreviewViewModelTest.kt:288-306 | A single crop hint becomes exactly the single crop model of that size with no crop-size model |
| StaticPreview.MergeCropHintsEntries | tests/robotests/src/com/android/wallpaper/picker/common/preview/ui/viewmodel/StaticPreviewViewModelTest.kt:438-500 | Keys are the union; with updateDefaultCrop existing entries are kept, without it incoming entries replace them; one-sided entries are kept |
| StaticPreview.DefaultCropIsDefaultMerge | tests/robotests/src/com/android/wallpaper/picker/common/preview/ui/viewmodel/StaticPreviewViewModelTest.kt:502-551 | Adding a default crop is the default merge of one entry: a present size changes nothing, a new size adds exactly that entry |
| StaticPreview.DefaultMergeIdempotent | tests/robotests/src/com/android/wallpaper/picker/common/preview/ui/viewmodel/StaticPreviewViewModelTest.kt:438-468 | Merging the same hints twice with updateDefaultCrop equals merging once |
| StaticPreview.StaticPreviewViewModel.constructor | tests/robotests/src/com/android/wallpaper/picker/common/preview/ui/viewmodel/StaticPreviewViewModelTest.kt:140-165 | No static model, no crop hints, empty crop-model map |
| StaticPreview.StaticPreviewViewModel.OnWallpapersEmitted | tests/robotests/src/com/android/wallpaper/picker/common/preview/ui/viewmodel/StaticPreviewViewModelTest.kt:140-339 | The static model is the screen's selection from the emitted pair; when it carries crop hints, the crop-hints info becomes exactly those hints as crop models, replacing any earlier ones; otherwise it is kept |
| StaticPreview.StaticPreviewViewModel.UpdateCropHintsInfo | tests/robotests/src/com/android/wallpaper/picker/common/preview/ui/viewmodel/StaticPreviewViewModelTest.kt:438-500 | The crop-model map becomes the merge of the old map with the incoming one |
| StaticPreview.StaticPreviewViewModel.UpdateDefaultPreviewCropModel | tests/robotests/src/com/android/wallpaper/picker/common/preview/ui/viewmodel/StaticPreviewViewModelTest.kt:502-551 | The crop-model map gains the entry only when the size is absent |
| StaticPreview.CropMergeScenario | tests/robotests/src/com/android/wallpaper/picker/common/preview/ui/viewmodel/StaticPreviewViewModelTest.kt:438-551 | The test's three-size sequences end in the asserted maps |
| StaticPreview.CropHintsEmissionScenario | tests/robotests/src/com/android/wallpaper/picker/common/preview/ui/viewmodel/StaticPreviewViewModelTest.kt:288-339 | Previewing a model with hints gives exactly those hints; previewing a second model gives exactly the second model's hints, the first size gone |
| PreviewBinder.SelectionRules | src/com/android/wallpaper/picker/common/preview/ui/binder/WallpaperPreviewBinder.kt:108-178 | HOME shows home; LOCK shows lock if present, else home; the lock view-model is used exactly for LOCK with a lock wallpaper |
| PreviewBinder.EmissionPaths | src/com/android/wallpaper/picker/common/preview/ui/binder/WallpaperPreviewBinder.kt:117-147 | A live wallpaper takes the engine-connect path with its which-preview and screen; a static one binds the chosen static view-model |
| PreviewBinder.PreviewShownOnBothScreens | src/com/android/wallpaper/picker/common/preview/ui/binder/WallpaperPreviewBinder.kt:114-178 | With a preview set, both screens show the preview through the home view-model |
| PreviewBinder.ChosenViewModelShowsChosenWallpaper | src/com/android/wallpaper/picker/common/preview/ui/binder/WallpaperPreviewBinder.kt:114-178 | When the chosen wallpaper is static, the chosen view-model emits exactly that static wallpaper |
| PreviewBinder.Job.Cancel | src/com/android/wallpaper/picker/common/preview/ui/binder/WallpaperPreviewBinder.kt:194-196 | The job is cancelled |
| PreviewBinder.SurfaceCallback.SurfaceCreated | src/com/android/wallpaper/picker/common/preview/ui/binder/WallpaperPreviewBinder.kt:108-112 | A fresh, running collecting job is stored |
| PreviewBinder.SurfaceCallback.SurfaceDestroyed | src/com/android/wallpaper/picker/common/preview/ui/binder/WallpaperPreviewBinder.kt:194-196 | The stored job, if any, is cancelled and the field cleared |
| PreviewBinder.SurfaceLifecycle | src/com/android/wallpaper/picker/common/preview/ui/binder/WallpaperPreviewBinder.kt:108-196 | Create then destroy leaves the launched job cancelled and no job stored |
| CategoryRepository.MapCategories | src/com/android/wallpaper/picker/category/data/repository/DefaultWallpaperCategoryRepository.kt:119-123 | Succeeds exactly when the factory succeeds on every element; then same length and element-wise the factory's result |
| CategoryRepository.FetchAllRunsEveryStep | src/com/android/wallpaper/picker/category/data/repository/DefaultWallpaperCategoryRepository.kt:100-112 | The fetched flag is set whatever fails, and the log gains each failing step's message in the order system, my photos, on device, third-party apps, third-party live |
| CategoryRepository.SystemStepOutcomes | src/com/android/wallpaper/picker/category/data/repository/DefaultWallpaperCategoryRepository.kt:129-138 | Client throws: raw and published unchanged; only factory throws: raw updated, published not; success: published is the factory over raw; other fields untouched |
| CategoryRepository.MyPhotosStepOutcomes | src/com/android/wallpaper/picker/category/data/repository/DefaultWallpaperCategoryRepository.kt:140-149 | As the system step; on success published is null exactly when raw is null, else the factory's conversion |
| CategoryRepository.OnDeviceStepOutcomes | src/com/android/wallpaper/picker/category/data/repository/DefaultWallpaperCategoryRepository.kt:153-162 | As the my-photos step, on the on-device fields |
| CategoryRepository.ThirdPartyAppStepOutcomes | src/com/android/wallpaper/picker/category/data/repository/DefaultWallpaperCategoryRepository.kt:164-177 | Either client call throwing leaves both fields; the excluded names feed the query; success publishes the factory over raw |
| CategoryRepository.ThirdPartyLiveStepOutcomes | src/com/android/wallpaper/picker/category/data/repository/DefaultWallpaperCategoryRepository.kt:114-127 | As the third-party app step, on the live-wallpaper fields |
| CategoryRepository.DefaultWallpaperCategoryRepository.constructor | src/com/android/wallpaper/picker/category/data/repository/DefaultWallpaperCategoryRepository.kt:46-98 | All lists empty, single categories null, flag false, log empty; fetching launched exactly when the refactoring flag is on |
| CategoryRepository.DefaultWallpaperCategoryRepository.FetchAllCategories | src/com/android/wallpaper/picker/category/data/repository/DefaultWallpaperCategoryRepository.kt:100-112 | The new state is the five steps in order followed by the flag |
| CategoryRepository.DefaultWallpaperCategoryRepository.FetchSystemCategories | src/com/android/wallpaper/picker/category/data/repository/DefaultWallpaperCategoryRepository.kt:129-138 | The new state is the system step of the old one |
| CategoryRepository.DefaultWallpaperCategoryRepository.FetchMyPhotosCategory | src/com/android/wallpaper/picker/category/data/repository/DefaultWallpaperCategoryRepository.kt:140-149 | The new state is the my-photos step of the old one |
| CategoryRepository.DefaultWallpaperCategoryRepository.FetchOnDeviceCategory | src/com/android/wallpaper/picker/category/data/repository/DefaultWallpaperCategoryRepository.kt:153-162 | The new state is the on-device step of the old one |
| CategoryRepository.DefaultWallpaperCategoryRepository.FetchThirdPartyAppCategory | src/com/android/wallpaper/picker/category/data/repository/DefaultWallpaperCategoryRepository.kt:164-177 | The new state is the third-party app step of the old one |
| CategoryRepository.DefaultWallpaperCategoryRepository.FetchThirdPartyLiveWallpaperCategory | src/com/android/wallpaper/picker/category/data/repository/DefaultWallpaperCategoryRepository.kt:114-127 | The new state is the third-party live step of the old one |
| CategoryRepository.DefaultWallpaperCategoryRepository.RefreshNetworkCategories | src/com/android/wallpaper/picker/category/data/repository/DefaultWallpaperCategoryRepository.kt:151 | Changes nothing |
| CategoryInteractor.Dedup | src/com/android/wallpaper/picker/category/domain/interactor/implementations/CategoryInteractorImpl.kt:42 | Insertion-ordered set: no duplicates, exactly the list's elements, never longer |
| CategoryInteractor.DedupPrefix | src/com/android/wallpaper/picker/category/domain/interactor/implementations/CategoryInteractorImpl.kt:42 | Insertion order: the set of a prefix of the list is a prefix of the set of the whole list |
| CategoryInteractor.AddIfAbsent | src/com/android/wallpaper/picker/category/domain/interactor/implementations/CategoryInteractorImpl.kt:43 | Adding to an insertion-ordered set keeps it duplicate-free, adds exactly the element, and keeps the old order as a prefix |
| CategoryInteractor.CombinedCategories | src/com/android/wallpaper/picker/category/domain/interactor/implementations/CategoryInteractorImpl.kt:42-43 | The combined categories have no duplicates |
| CategoryInteractor.CombinedCategoriesContents | src/com/android/wallpaper/picker/category/domain/interactor/implementations/CategoryInteractorImpl.kt:42-43 | Exactly the third-party, system and (if present) on-device categories; size at most the sum; third-party order first; a new on-device category last |
| CategoryInteractor.CategoryInteractorImpl.Categories | src/com/android/wallpaper/picker/category/domain/interactor/implementations/CategoryInteractorImpl.kt:33-44 | Every third-party and system category and the on-device one are in, nothing else (no my-photos or live categories), no duplicates |
| CategoryWrapper.OptionalList | src/com/android/wallpaper/picker/category/wrapper/DefaultWallpaperCategoryWrapper.kt:42-43 | A null category contributes nothing, a present one exactly itself |
| CategoryWrapper.AssociateBy | src/com/android/wallpaper/picker/category/wrapper/DefaultWallpaperCategoryWrapper.kt:58 | Keys are exactly the collection ids in the list; each maps to a category of the list carrying that id |
| CategoryWrapper.AssociateByLastWins | src/com/android/wallpaper/picker/category/wrapper/DefaultWallpaperCategoryWrapper.kt:58-60 | With duplicate ids the last category in the list wins |
| CategoryWrapper.RefreshLiveWallpaperCategories | src/com/android/wallpaper/picker/category/wrapper/DefaultWallpaperCategoryWrapper.kt:63-65 | Always fails |
| CategoryWrapper.DefaultWallpaperCategoryWrapper.constructor | src/com/android/wallpaper/picker/category/wrapper/DefaultWallpaperCategoryWrapper.kt:30 | No map is cached |
| CategoryWrapper.DefaultWallpaperCategoryWrapper.GetCategories | src/com/android/wallpaper/picker/category/wrapper/DefaultWallpaperCategoryWrapper.kt:32-50 | Length is the sum of present parts; my photos first, on device next, then third-party, system and live blocks, each in repository order |
| CategoryWrapper.ForceRefreshIgnored | src/com/android/wallpaper/picker/category/wrapper/DefaultWallpaperCategoryWrapper.kt:32-50 | The force-refresh flag does not change the list |
| CategoryWrapper.DefaultWallpaperCategoryWrapper.GetCategory | src/com/android/wallpaper/picker/category/wrapper/DefaultWallpaperCategoryWrapper.kt:52-61 | The first call caches the id map of its list, later calls keep it; the answer is the cached map's entry or null |
| CategoryWrapper.StaleMapScenario | src/com/android/wallpaper/picker/category/wrapper/DefaultWallpaperCategoryWrapper.kt:57-60 | After a first lookup, a new list is ignored: its own category is not found while the first one still is |
| CategoriesUi.CollectionTile | src/com/android/wallpaper/picker/category/ui/viewmodel/CategoriesViewModel.kt:103-147 | Tile text is the category title; no default drawable |
| CategoriesUi.ThirdPartyCategorySections | src/com/android/wallpaper/picker/category/ui/viewmodel/CategoriesViewModel.kt:79-95 | One section per third-party category |
| CategoriesUi.DefaultCategorySections | src/com/android/wallpaper/picker/category/ui/viewmodel/CategoriesViewModel.kt:97-126 | One section per default category |
| CategoriesUi.CreativeSectionViewModel | src/com/android/wallpaper/picker/category/ui/viewmodel/CategoriesViewModel.kt:131-154 | One tile per creative category |
| CategoriesUi.MyPhotosSectionViewModel | src/com/android/wallpaper/picker/category/ui/viewmodel/CategoriesViewModel.kt:156-173 | Exactly one tile |
| CategoriesUi.Sections | src/com/android/wallpaper/picker/category/ui/viewmodel/CategoriesViewModel.kt:128-185 | Section count is 2 + default + third-party |
| CategoriesUi.SectionsLayout | src/com/android/wallpaper/picker/category/ui/viewmodel/CategoriesViewModel.kt:79-185 | Creative first (3 columns, titled, tiles in category order), my photos second (3 columns); then one untitled one-column single-tile section per default then per third-party category; every tile text is its category title |
| CategoriesUi.CollectionTileClick | src/com/android/wallpaper/picker/category/ui/viewmodel/CategoriesViewModel.kt:108-146 | Single-wallpaper category: preview of its first wallpaper, or an index failure on an empty list; otherwise the collection by id |
| CategoriesUi.OtherTileClicks | src/com/android/wallpaper/picker/category/ui/viewmodel/CategoriesViewModel.kt:85-168 | A third-party tile navigates exactly when a resolve info is present, to that app; the my-photos tile opens the photo picker |
| CategoriesUi.CategoriesViewModel.constructor | src/com/android/wallpaper/picker/category/ui/viewmodel/CategoriesViewModel.kt:54-55 | No navigation events |
| CategoriesUi.CategoriesViewModel.OnTileClicked | src/com/android/wallpaper/picker/category/ui/viewmodel/CategoriesViewModel.kt:57-77 | The tile's click result; a navigating click emits exactly its event after the earlier ones |
| CategoriesUi.ClickScenario | src/com/android/wallpaper/picker/category/ui/viewmodel/CategoriesViewModel.kt:115-167 | A collection click and a my-photos click emit their two events in order |
| DeepLink.StartsWithIffSuffix | src/com/android/wallpaper/util/DeepLinkUtils.kt:33 | The prefix test holds exactly when the string is the prefix followed by something |
| DeepLink.IsDeepLink | src/com/android/wallpaper/util/DeepLinkUtils.kt:29-34 | Deep link exactly when data is present, its scheme is "https" and its scheme-specific part is "//g.co/wallpaper" followed by anything |
| DeepLink.GetCollectionId | src/com/android/wallpaper/util/DeepLinkUtils.kt:42-45 | Deep link: the collection_id query parameter (extra ignored); otherwise the extra_collection_id extra; no data and no extra: null |
| DeepLink.DeepLinkExamples | src/com/android/wallpaper/util/DeepLinkUtils.kt:22-45 | A longer path is accepted; another or missing scheme or a shorter part is not; the query parameter wins over the extra only for deep links |
| NetworkStatus.EmissionTrace | src/com/android/wallpaper/picker/network/data/DefaultNetworkStatusRepository.kt:50-57 | One value per callback, true exactly when the previous status was not connected and this one is |
| NetworkStatus.EmissionTraceSnoc | src/com/android/wallpaper/picker/network/data/DefaultNetworkStatusRepository.kt:50-57 | One more callback appends exactly its own emission, computed from the last stored status |
| NetworkStatus.NoConsecutiveTrue | src/com/android/wallpaper/picker/network/data/DefaultNetworkStatusRepository.kt:50-56 | Two consecutive callbacks never both report true |
| NetworkStatus.NetworkStatusNotifier.SetNetworkStatus | src/com/android/wallpaper/picker/network/data/DefaultNetworkStatusRepository.kt:57 | The notifier's current status is the given one |
| NetworkStatus.DefaultNetworkStatusRepository.constructor | src/com/android/wallpaper/picker/network/data/DefaultNetworkStatusRepository.kt:40-44 | The stored status starts as the notifier's status |
| NetworkStatus.DefaultNetworkStatusRepository.OnNetworkStatusChanged | src/com/android/wallpaper/picker/network/data/DefaultNetworkStatusRepository.kt:46-58 | Exactly one value sent, true iff stored was not connected and the callback says connected; then the stored status is the notifier's, not the argument |
| NetworkStatus.ReconnectScenario | src/com/android/wallpaper/picker/network/data/DefaultNetworkStatusRepository.kt:50-57 | Two CONNECTED callbacks after reconnecting send true then false |
| NetworkStatus.StaleNotifierScenario | src/com/android/wallpaper/picker/network/data/DefaultNetworkStatusRepository.kt:57 | When the notifier still reads not connected, the stored status stays not connected and a second CONNECTED callback sends true again |
| NetworkStatus.TrackedRun | src/com/android/wallpaper/picker/network/data/DefaultNetworkStatusRepository.kt:40-58 | For any initial status and any run of callbacks the notifier tracks, the repository sends exactly the emission trace |
| TabToolbar.ElementVisibility | src/com/android/wallpaper/picker/customization/ui/view/FloatingTabToolbar.kt:61-81 | Hidden: everything gone; shown: visible, except the tertiary background, invisible outside the tertiary-selected set |
| TabToolbar.FloatingTabToolbar.constructor | src/com/android/wallpaper/picker/customization/ui/view/FloatingTabToolbar.kt:54-165 | Third tab hidden, no handlers, no texts set, no selection |
| TabToolbar.FloatingTabToolbar.ShowTertiaryTab | src/com/android/wallpaper/picker/customization/ui/view/FloatingTabToolbar.kt:61-62 | Stores the flag; handlers, texts and selection unchanged |
| TabToolbar.FloatingTabToolbar.SetOnTabClick | src/com/android/wallpaper/picker/customization/ui/view/FloatingTabToolbar.kt:83-100 | Throws exactly for the hidden third tab, changing nothing; otherwise sets only that tab's handler |
| TabToolbar.FloatingTabToolbar.SetTabText | src/com/android/wallpaper/picker/customization/ui/view/FloatingTabToolbar.kt:102-119 | Throws exactly for the hidden third tab, changing nothing; otherwise sets only that tab's text |
| TabToolbar.FloatingTabToolbar.SetTabSelected | src/com/android/wallpaper/picker/customization/ui/view/FloatingTabToolbar.kt:121-138 | Throws exactly for the hidden third tab; otherwise transitions to that tab's selected state |
| TabToolbar.FloatingTabToolbar.ClickTab | src/com/android/wallpaper/picker/customization/ui/view/FloatingTabToolbar.kt:150-161 | Selects the tab, then runs its handler if set; throws for the hidden third tab |
| TabToolbar.TertiaryTabScenario | src/com/android/wallpaper/picker/customization/ui/view/FloatingTabToolbar.kt:91-164 | Configuring the third tab fails while hidden and succeeds once shown; its click then selects it and runs its handler |
| TabAdapter.GetChangePayload | src/com/android/wallpaper/picker/customization/ui/view/adapter/FloatingToolbarTabAdapter.kt:198-207 | SELECT for unselected to selected, UNSELECT for the reverse, nothing when selection is unchanged |
| TabAdapter.DiffCallbacksAgree | src/com/android/wallpaper/picker/customization/ui/view/adapter/FloatingToolbarTabAdapter.kt:182-207 | Same contents implies same item and no payload; a payload means the contents differ |
| TabAdapter.BindTab | src/com/android/wallpaper/picker/customization/ui/view/adapter/FloatingToolbarTabAdapter.kt:106-123 | Icon width is the icon size and alpha 255 when selected, both 0 otherwise; icon, text and handler are the item's |
| TabAdapter.BoundSelection | src/com/android/wallpaper/picker/customization/ui/view/adapter/FloatingToolbarTabAdapter.kt:64-82 | SELECT binds unselected, UNSELECT binds selected, anything else binds the item's own selection |
| TabAdapter.SelectionChangeAnimates | src/com/android/wallpaper/picker/customization/ui/view/adapter/FloatingToolbarTabAdapter.kt:64-82 | The adapter's payload makes the animator record the change's direction; the payload bind is the animation's first frame and the full bind of the new item its last |
| TabAdapter.LifecycleRegistry.HandleLifecycleEvent | src/com/android/wallpaper/picker/customization/ui/view/adapter/FloatingToolbarTabAdapter.kt:157-177 | The registry moves to the event's target state |
| TabAdapter.TabViewHolder.constructor | src/com/android/wallpaper/picker/customization/ui/view/adapter/FloatingToolbarTabAdapter.kt:157-164 | A fresh registry in CREATED |
| TabAdapter.TabViewHolder.OnAttachToWindow | src/com/android/wallpaper/picker/customization/ui/view/adapter/FloatingToolbarTabAdapter.kt:166-168 | STARTED |
| TabAdapter.TabViewHolder.OnDetachFromWindow | src/com/android/wallpaper/picker/customization/ui/view/adapter/FloatingToolbarTabAdapter.kt:170-172 | CREATED |
| TabAdapter.TabViewHolder.OnRecycled | src/com/android/wallpaper/picker/customization/ui/view/adapter/FloatingToolbarTabAdapter.kt:174-177 | The old registry is DESTROYED and a fresh one in CREATED replaces it |
| TabAdapter.FloatingToolbarTabAdapter.constructor | src/com/android/wallpaper/picker/customization/ui/view/adapter/FloatingToolbarTabAdapter.kt:44-50 | The list adapter starts with no items |
| TabAdapter.FloatingToolbarTabAdapter.SubmitList | src/com/android/wallpaper/picker/customization/ui/view/adapter/FloatingToolbarTabAdapter.kt:44-50 | The adapter's list becomes the submitted list |
| TabAdapter.FloatingToolbarTabAdapter.OnBindViewHolder | src/com/android/wallpaper/picker/customization/ui/view/adapter/FloatingToolbarTabAdapter.kt:64-104 | The holder shows the item bound with the payload's pre-animation selection |
| TabAdapter.FloatingToolbarTabAdapter.OnViewAttachedToWindow | src/com/android/wallpaper/picker/customization/ui/view/adapter/FloatingToolbarTabAdapter.kt:125-128 | The holder's lifecycle is STARTED |
| TabAdapter.FloatingToolbarTabAdapter.OnViewDetachedFromWindow | src/com/android/wallpaper/picker/customization/ui/view/adapter/FloatingToolbarTabAdapter.kt:130-133 | The holder's lifecycle is CREATED |
| TabAdapter.FloatingToolbarTabAdapter.OnViewRecycled | src/com/android/wallpaper/picker/customization/ui/view/adapter/FloatingToolbarTabAdapter.kt:135-138 | The old registry is destroyed and a fresh CREATED one installed; the holder's binding is kept |
| TabAdapter.HolderLifecycleScenario | src/com/android/wallpaper/picker/customization/ui/view/adapter/FloatingToolbarTabAdapter.kt:140-177 | Attach, detach, recycle: STARTED, CREATED, then old DESTROYED and new CREATED |
| TabAdapter.SelectTabScenario | src/com/android/wallpaper/picker/customization/ui/view/adapter/FloatingToolbarTabAdapter.kt:71-103 | Selecting a tab: the payload bind shows it unselected, the full bind selected |
| TabAnimator.FirstIntPayload | src/com/android/wallpaper/picker/customization/ui/view/animator/TabItemAnimator.kt:39-40 | The first payload as an Int, if there is one |
| TabAnimator.CanReuseUpdatedViewHolder | src/com/android/wallpaper/picker/customization/ui/view/animator/TabItemAnimator.kt:30-31 | Always true |
| TabAnimator.RecordPreLayoutInformation | src/com/android/wallpaper/picker/customization/ui/view/animator/TabItemAnimator.kt:33-47 | Tab info exactly for FLAG_CHANGED with a SELECT or UNSELECT first payload, selecting exactly for SELECT; default info otherwise |
| TabAnimator.AnimateChange | src/com/android/wallpaper/picker/customization/ui/view/animator/TabItemAnimator.kt:49-83 | Tab info animates between 0 and 1 for 200 ms, ending at 1 exactly when selecting; other infos go to the default animator |
| TabAnimator.FrameAt | src/com/android/wallpaper/picker/customization/ui/view/animator/TabItemAnimator.kt:66-74 | Frames stay within [0, icon size] and [0, 255]; value 0 gives (0, 0), value 1 gives (icon size, 255) |
| TabAnimator.FrameMonotone | src/com/android/wallpaper/picker/customization/ui/view/animator/TabItemAnimator.kt:66-74 | A larger animated value never gives a narrower icon or lower alpha |
| SurfaceView.CustomizationSurfaceView.constructor | src/com/android/wallpaper/picker/common/preview/ui/view/CustomizationSurfaceView.kt:31 | Not transitioning, no fixed size |
| SurfaceView.CustomizationSurfaceView.OnSizeChanged | src/com/android/wallpaper/picker/common/preview/ui/view/CustomizationSurfaceView.kt:33-47 | From a non-zero size nothing changes; from 0x0 while transitioning the flag clears and the size is kept; otherwise the surface is fixed at (w, h) |
| SurfaceView.CustomizationSurfaceView.SetTransitioning | src/com/android/wallpaper/picker/common/preview/ui/view/CustomizationSurfaceView.kt:54-56 | Sets the flag only |
| SurfaceView.TransitionScenario | src/com/android/wallpaper/picker/common/preview/ui/view/CustomizationSurfaceView.kt:37-45 | The flag is consumed by exactly one 0x0 resize; a non-zero resize does nothing; the next 0x0 resize fixes the size |

## Left out

- Coroutine scheduling, `stateIn` sharing, and the exact pairing done by `zip` and `combine`. Flows are modelled by their latest values, and a `combine` is taken to emit once every input has a value.
- The wallpaper engine connection (`WallpaperConnectionUtils.connect`), static-preview view inflation, display sizes and `StaticPreviewBinder`. The binder model records which path a wallpaper takes, its which-preview and screen, and which static view model it uses.
- StaticPreviewViewModel's implementation file is not part of this model. Its model follows what StaticPreviewViewModelTest asserts: the static model chosen per screen, the crop-hints info replaced by an emitted model's hints, and the merge rules for crop maps. Bitmap decoding and region loading are left out.
- StaticPreview.StaticPreviewViewModel.OnWallpapersEmitted: the claim that emission leaves the crop-model map unchanged, and that an emitted model without crop hints keeps the previous crop-hints info, are assumptions about the absent implementation. No test asserts either, and the two maps may be coupled in the real code.
- StaticPreview.StaticPreviewViewModel.UpdateCropHintsInfo: that it leaves the crop-hints info and the static model unchanged is an assumption about the absent implementation.
- StaticPreview.StaticPreviewViewModel.UpdateDefaultPreviewCropModel: that it leaves the crop-hints info and the static model unchanged is an assumption about the absent implementation.
- WallpaperPreferences and NetworkStatusNotifier are not part of this model. The preferences are two booleans. The notifier's status constants are a three-valued datatype.
- The `Uri` and `Intent` parsing that Android does is taken as given. A `Uri` is its scheme, its scheme-specific part and its query parameters.
- Layout XML defaults, colours, and the `ColorUpdateBinder` colour binding in `onBindViewHolder`. The motion layout's initial selection and the tabs' initial texts come from XML, so the model treats them as unset (`None`).
- TabAnimator.FrameAt: the animated value is a real, and the `Float` multiplication and `toInt()` truncation are modelled as `Floor` on reals. Frames between the endpoints are therefore exact, not single-precision.
- The value animator's timing, update listener scheduling and `dispatchAnimationFinished`. The animation is its start value, end value and duration.
- TabAdapter.LifecycleRegistry.HandleLifecycleEvent: moves straight to the event's target state. The observer dispatch and the ordering checks of the Android lifecycle registry are left out.
- `ListAdapter`'s asynchronous diffing. `SubmitList` replaces the list at once; the diff callbacks are modelled as functions.
- The catch in `fetchAllCategories` around the five steps cannot fire: each step catches its own exceptions. Its log message is therefore not modelled, but its `finally` is.
- `getCategoryModel` can throw. The model represents this as a factory returning `None`.
- The category repository's getters are modelled as the fields they return.
- `updateMyPhotosCategory` and `isLoading` in the categories view model delegate to interactors outside this core and are left out.
- The creative, my-photos and third-party category interactors are inputs: the model takes their current category lists.
- Download.LiveWallpaperDownloader: the test downloader's cancel always answers `false`. The model returns a configured answer instead.
- `initiateDownloadableService` also takes an activity and an intent launcher. These have no effect on the test downloader and are not modelled.
- The download callback `onDownloaded` is modelled as an optional preview repository to write into. No repository means the no-op callback. The only non-trivial callback in the core, in PreviewActionsInteractor, writes that repository.
- Preview binding's "other" wallpaper branch cannot be taken: the model has only the live and static wallpaper kinds.
