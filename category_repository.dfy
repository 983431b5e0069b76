/**
 * `DefaultWallpaperCategoryRepository`: five fetch steps run in a fixed order.
 * Each step asks the client for raw categories, stores them, converts them
 * with the category factory and publishes the result; a step that throws is
 * logged and the next step still runs; the "fetched" flag is set at the end.
 * The client is given as its answers (or the exception each call throws).
 */
module CategoryRepository {
  import opened Wrappers
  import opened Categories

  /** The answers of `DefaultWallpaperCategoryClient`, one per call. */
  datatype CategoryClient = CategoryClient(
    systemCategories: Outcome<seq<Category>>,
    myPhotosCategory: Outcome<Option<Category>>,
    onDeviceCategory: Outcome<Option<Category>>,
    excludedThirdPartyPackageNames: Outcome<seq<string>>,
    thirdPartyCategory: seq<string> -> Outcome<seq<Category>>,
    excludedLiveWallpaperPackageNames: Outcome<set<string>>,
    thirdPartyLiveWallpaperCategory: set<string> -> Outcome<seq<Category>>)

  const SystemError := "Error fetching system categories"
  const MyPhotosError := "Error fetching My Photos category"
  const OnDeviceError := "Error fetching On Device category"
  const ThirdPartyAppError := "Error fetching third party app categories"
  const ThirdPartyLiveError := "Error fetching third party live wallpaper categories"

  /**
   * `list.map { factory.getCategoryModel(it) }`: the converted list, or `None`
   * when the factory throws on some element.
   */
  function MapCategories(factory: CategoryFactory, raw: seq<Category>): (r: Option<seq<CategoryModel>>)
    ensures r.Some? <==> forall i :: 0 <= i < |raw| ==> factory(raw[i]).Some?
    ensures r.Some? ==> |r.value| == |raw| && forall i :: 0 <= i < |raw| ==> r.value[i] == factory(raw[i]).value
  {
    if |raw| == 0 then Some([])
    else
      match factory(raw[0])
      case None => None
      case Some(first) =>
        match MapCategories(factory, raw[1..])
        case None => None
        case Some(rest) => Some([first] + rest)
  }

  /** `category?.let { factory.getCategoryModel(it) }`: `Some(None)` for a null category, `None` when the factory throws. */
  function MapOptional(factory: CategoryFactory, raw: Option<Category>): (r: Option<Option<CategoryModel>>)
  {
    if raw.None? then Some(None)
    else if factory(raw.value).None? then None
    else Some(Some(factory(raw.value).value))
  }

  /** The repository's fields: raw fetched values, published values, the flag, and the error log. */
  datatype RepositoryState = RepositoryState(
    myPhotosFetchedCategory: Option<Category>,
    onDeviceFetchedCategory: Option<Category>,
    thirdPartyFetchedCategory: seq<Category>,
    systemFetchedCategories: seq<Category>,
    thirdPartyLiveWallpaperFetchedCategories: seq<Category>,
    systemCategories: seq<CategoryModel>,
    myPhotosCategory: Option<CategoryModel>,
    onDeviceCategory: Option<CategoryModel>,
    thirdPartyAppCategory: seq<CategoryModel>,
    thirdPartyLiveWallpaperCategory: seq<CategoryModel>,
    isDefaultCategoriesFetched: bool,
    log: seq<string>)

  const InitialState := RepositoryState(None, None, [], [], [], [], None, None, [], [], false, [])

  function FetchSystem(s: RepositoryState, client: CategoryClient, factory: CategoryFactory): RepositoryState {
    match client.systemCategories
    case Thrown(_) => s.(log := s.log + [SystemError])
    case Ok(raw) =>
      match MapCategories(factory, raw)
      case None => s.(systemFetchedCategories := raw, log := s.log + [SystemError])
      case Some(models) => s.(systemFetchedCategories := raw, systemCategories := models)
  }

  function FetchMyPhotos(s: RepositoryState, client: CategoryClient, factory: CategoryFactory): RepositoryState {
    match client.myPhotosCategory
    case Thrown(_) => s.(log := s.log + [MyPhotosError])
    case Ok(raw) =>
      match MapOptional(factory, raw)
      case None => s.(myPhotosFetchedCategory := raw, log := s.log + [MyPhotosError])
      case Some(model) => s.(myPhotosFetchedCategory := raw, myPhotosCategory := model)
  }

  function FetchOnDevice(s: RepositoryState, client: CategoryClient, factory: CategoryFactory): RepositoryState {
    match client.onDeviceCategory
    case Thrown(_) => s.(log := s.log + [OnDeviceError])
    case Ok(raw) =>
      match MapOptional(factory, raw)
      case None => s.(onDeviceFetchedCategory := raw, log := s.log + [OnDeviceError])
      case Some(model) => s.(onDeviceFetchedCategory := raw, onDeviceCategory := model)
  }

  function FetchThirdPartyApp(s: RepositoryState, client: CategoryClient, factory: CategoryFactory): RepositoryState {
    match client.excludedThirdPartyPackageNames
    case Thrown(_) => s.(log := s.log + [ThirdPartyAppError])
    case Ok(excluded) =>
      match client.thirdPartyCategory(excluded)
      case Thrown(_) => s.(log := s.log + [ThirdPartyAppError])
      case Ok(raw) =>
        match MapCategories(factory, raw)
        case None => s.(thirdPartyFetchedCategory := raw, log := s.log + [ThirdPartyAppError])
        case Some(models) => s.(thirdPartyFetchedCategory := raw, thirdPartyAppCategory := models)
  }

  function FetchThirdPartyLive(s: RepositoryState, client: CategoryClient, factory: CategoryFactory): RepositoryState {
    match client.excludedLiveWallpaperPackageNames
    case Thrown(_) => s.(log := s.log + [ThirdPartyLiveError])
    case Ok(excluded) =>
      match client.thirdPartyLiveWallpaperCategory(excluded)
      case Thrown(_) => s.(log := s.log + [ThirdPartyLiveError])
      case Ok(raw) =>
        match MapCategories(factory, raw)
        case None => s.(thirdPartyLiveWallpaperFetchedCategories := raw, log := s.log + [ThirdPartyLiveError])
        case Some(models) => s.(thirdPartyLiveWallpaperFetchedCategories := raw, thirdPartyLiveWallpaperCategory := models)
  }

  /** `fetchAllCategories`: system, my photos, on device, third-party apps, third-party live; then the flag. */
  function FetchAll(s: RepositoryState, client: CategoryClient, factory: CategoryFactory): RepositoryState {
    var afterSteps :=
      FetchThirdPartyLive(FetchThirdPartyApp(FetchOnDevice(FetchMyPhotos(FetchSystem(s, client, factory), client, factory), client, factory), client, factory), client, factory);
    afterSteps.(isDefaultCategoriesFetched := true)
  }

  /** Whether a step fails, in which case it logs its error. */
  predicate SystemFails(client: CategoryClient, factory: CategoryFactory) {
    client.systemCategories.Thrown? || MapCategories(factory, client.systemCategories.value).None?
  }
  predicate MyPhotosFails(client: CategoryClient, factory: CategoryFactory) {
    client.myPhotosCategory.Thrown? || MapOptional(factory, client.myPhotosCategory.value).None?
  }
  predicate OnDeviceFails(client: CategoryClient, factory: CategoryFactory) {
    client.onDeviceCategory.Thrown? || MapOptional(factory, client.onDeviceCategory.value).None?
  }
  predicate ThirdPartyAppFails(client: CategoryClient, factory: CategoryFactory) {
    client.excludedThirdPartyPackageNames.Thrown? ||
    client.thirdPartyCategory(client.excludedThirdPartyPackageNames.value).Thrown? ||
    MapCategories(factory, client.thirdPartyCategory(client.excludedThirdPartyPackageNames.value).value).None?
  }
  predicate ThirdPartyLiveFails(client: CategoryClient, factory: CategoryFactory) {
    client.excludedLiveWallpaperPackageNames.Thrown? ||
    client.thirdPartyLiveWallpaperCategory(client.excludedLiveWallpaperPackageNames.value).Thrown? ||
    MapCategories(factory, client.thirdPartyLiveWallpaperCategory(client.excludedLiveWallpaperPackageNames.value).value).None?
  }

  function ErrorIf(fails: bool, message: string): seq<string> {
    if fails then [message] else []
  }

  /**
   * After `fetchAllCategories` the flag is set whatever failed, and the log
   * grows by the errors of the failing steps in step order: every step ran.
   */
  lemma {:induction false} FetchAllRunsEveryStep(s: RepositoryState, client: CategoryClient, factory: CategoryFactory)
    ensures FetchAll(s, client, factory).isDefaultCategoriesFetched
    ensures FetchAll(s, client, factory).log ==
              s.log + ErrorIf(SystemFails(client, factory), SystemError)
                    + ErrorIf(MyPhotosFails(client, factory), MyPhotosError)
                    + ErrorIf(OnDeviceFails(client, factory), OnDeviceError)
                    + ErrorIf(ThirdPartyAppFails(client, factory), ThirdPartyAppError)
                    + ErrorIf(ThirdPartyLiveFails(client, factory), ThirdPartyLiveError)
  {
    var s1 := FetchSystem(s, client, factory);
    SystemStepOutcomes(s, client, factory);
    var s2 := FetchMyPhotos(s1, client, factory);
    MyPhotosStepOutcomes(s1, client, factory);
    var s3 := FetchOnDevice(s2, client, factory);
    OnDeviceStepOutcomes(s2, client, factory);
    var s4 := FetchThirdPartyApp(s3, client, factory);
    ThirdPartyAppStepOutcomes(s3, client, factory);
    ThirdPartyLiveStepOutcomes(s4, client, factory);
  }

  /**
   * The system step: when the client throws, neither the raw nor the
   * published list changes; when only the factory throws, the raw list is
   * stored but the published list is not; otherwise the published list is
   * the factory applied to each raw category, same length and order.
   * Nothing else but the log changes.
   */
  lemma SystemStepOutcomes(s: RepositoryState, client: CategoryClient, factory: CategoryFactory)
    ensures FetchSystem(s, client, factory).log == s.log + ErrorIf(SystemFails(client, factory), SystemError)
    ensures var t := FetchSystem(s, client, factory);
      t.(systemFetchedCategories := s.systemFetchedCategories, systemCategories := s.systemCategories, log := s.log) == s
    ensures client.systemCategories.Thrown? ==>
              FetchSystem(s, client, factory).systemFetchedCategories == s.systemFetchedCategories &&
              FetchSystem(s, client, factory).systemCategories == s.systemCategories
    ensures client.systemCategories.Ok? ==>
              FetchSystem(s, client, factory).systemFetchedCategories == client.systemCategories.value
    ensures client.systemCategories.Ok? && SystemFails(client, factory) ==>
              FetchSystem(s, client, factory).systemCategories == s.systemCategories
    ensures !SystemFails(client, factory) ==>
              var raw := client.systemCategories.value;
              var published := FetchSystem(s, client, factory).systemCategories;
              |published| == |raw| && forall i :: 0 <= i < |raw| ==> Some(published[i]) == factory(raw[i])
  {
  }

  /**
   * The my-photos step: on success the published value is null exactly when
   * the raw value is null, and otherwise is the factory's conversion of it;
   * a throwing client changes neither; a throwing factory stores only the raw value.
   */
  lemma MyPhotosStepOutcomes(s: RepositoryState, client: CategoryClient, factory: CategoryFactory)
    ensures FetchMyPhotos(s, client, factory).log == s.log + ErrorIf(MyPhotosFails(client, factory), MyPhotosError)
    ensures var t := FetchMyPhotos(s, client, factory);
      t.(myPhotosFetchedCategory := s.myPhotosFetchedCategory, myPhotosCategory := s.myPhotosCategory, log := s.log) == s
    ensures client.myPhotosCategory.Thrown? ==>
              FetchMyPhotos(s, client, factory).myPhotosFetchedCategory == s.myPhotosFetchedCategory &&
              FetchMyPhotos(s, client, factory).myPhotosCategory == s.myPhotosCategory
    ensures client.myPhotosCategory.Ok? ==>
              FetchMyPhotos(s, client, factory).myPhotosFetchedCategory == client.myPhotosCategory.value
    ensures client.myPhotosCategory.Ok? && MyPhotosFails(client, factory) ==>
              FetchMyPhotos(s, client, factory).myPhotosCategory == s.myPhotosCategory
    ensures !MyPhotosFails(client, factory) ==>
              var raw := client.myPhotosCategory.value;
              var published := FetchMyPhotos(s, client, factory).myPhotosCategory;
              (published.None? <==> raw.None?) && (raw.Some? ==> Some(published.value) == factory(raw.value))
  {
  }

  /** The on-device step behaves like the my-photos step, on its own two fields. */
  lemma OnDeviceStepOutcomes(s: RepositoryState, client: CategoryClient, factory: CategoryFactory)
    ensures FetchOnDevice(s, client, factory).log == s.log + ErrorIf(OnDeviceFails(client, factory), OnDeviceError)
    ensures var t := FetchOnDevice(s, client, factory);
      t.(onDeviceFetchedCategory := s.onDeviceFetchedCategory, onDeviceCategory := s.onDeviceCategory, log := s.log) == s
    ensures client.onDeviceCategory.Thrown? ==>
              FetchOnDevice(s, client, factory).onDeviceFetchedCategory == s.onDeviceFetchedCategory &&
              FetchOnDevice(s, client, factory).onDeviceCategory == s.onDeviceCategory
    ensures client.onDeviceCategory.Ok? ==>
              FetchOnDevice(s, client, factory).onDeviceFetchedCategory == client.onDeviceCategory.value
    ensures client.onDeviceCategory.Ok? && OnDeviceFails(client, factory) ==>
              FetchOnDevice(s, client, factory).onDeviceCategory == s.onDeviceCategory
    ensures !OnDeviceFails(client, factory) ==>
              var raw := client.onDeviceCategory.value;
              var published := FetchOnDevice(s, client, factory).onDeviceCategory;
              (published.None? <==> raw.None?) && (raw.Some? ==> Some(published.value) == factory(raw.value))
  {
  }

  /**
   * The third-party app step: it asks for the excluded package names first
   * and passes them to the category query; either call throwing leaves both
   * fields as they were; otherwise as the system step.
   */
  lemma ThirdPartyAppStepOutcomes(s: RepositoryState, client: CategoryClient, factory: CategoryFactory)
    ensures FetchThirdPartyApp(s, client, factory).log == s.log + ErrorIf(ThirdPartyAppFails(client, factory), ThirdPartyAppError)
    ensures var t := FetchThirdPartyApp(s, client, factory);
      t.(thirdPartyFetchedCategory := s.thirdPartyFetchedCategory, thirdPartyAppCategory := s.thirdPartyAppCategory, log := s.log) == s
    ensures client.excludedThirdPartyPackageNames.Thrown? ||
            client.thirdPartyCategory(client.excludedThirdPartyPackageNames.value).Thrown? ==>
              FetchThirdPartyApp(s, client, factory).thirdPartyFetchedCategory == s.thirdPartyFetchedCategory &&
              FetchThirdPartyApp(s, client, factory).thirdPartyAppCategory == s.thirdPartyAppCategory
    ensures ThirdPartyAppFails(client, factory) ==>
              FetchThirdPartyApp(s, client, factory).thirdPartyAppCategory == s.thirdPartyAppCategory
    ensures !ThirdPartyAppFails(client, factory) ==>
              var raw := client.thirdPartyCategory(client.excludedThirdPartyPackageNames.value).value;
              var published := FetchThirdPartyApp(s, client, factory).thirdPartyAppCategory;
              FetchThirdPartyApp(s, client, factory).thirdPartyFetchedCategory == raw &&
              |published| == |raw| && forall i :: 0 <= i < |raw| ==> Some(published[i]) == factory(raw[i])
  {
  }

  /** The third-party live step: as the third-party app step, on the live-wallpaper fields. */
  lemma ThirdPartyLiveStepOutcomes(s: RepositoryState, client: CategoryClient, factory: CategoryFactory)
    ensures FetchThirdPartyLive(s, client, factory).log == s.log + ErrorIf(ThirdPartyLiveFails(client, factory), ThirdPartyLiveError)
    ensures var t := FetchThirdPartyLive(s, client, factory);
      t.(thirdPartyLiveWallpaperFetchedCategories := s.thirdPartyLiveWallpaperFetchedCategories,
         thirdPartyLiveWallpaperCategory := s.thirdPartyLiveWallpaperCategory, log := s.log) == s
    ensures client.excludedLiveWallpaperPackageNames.Thrown? ||
            client.thirdPartyLiveWallpaperCategory(client.excludedLiveWallpaperPackageNames.value).Thrown? ==>
              FetchThirdPartyLive(s, client, factory).thirdPartyLiveWallpaperFetchedCategories == s.thirdPartyLiveWallpaperFetchedCategories &&
              FetchThirdPartyLive(s, client, factory).thirdPartyLiveWallpaperCategory == s.thirdPartyLiveWallpaperCategory
    ensures ThirdPartyLiveFails(client, factory) ==>
              FetchThirdPartyLive(s, client, factory).thirdPartyLiveWallpaperCategory == s.thirdPartyLiveWallpaperCategory
    ensures !ThirdPartyLiveFails(client, factory) ==>
              var raw := client.thirdPartyLiveWallpaperCategory(client.excludedLiveWallpaperPackageNames.value).value;
              var published := FetchThirdPartyLive(s, client, factory).thirdPartyLiveWallpaperCategory;
              FetchThirdPartyLive(s, client, factory).thirdPartyLiveWallpaperFetchedCategories == raw &&
              |published| == |raw| && forall i :: 0 <= i < |raw| ==> Some(published[i]) == factory(raw[i])
  {
  }

  class DefaultWallpaperCategoryRepository {
    const client: CategoryClient
    const factory: CategoryFactory
    /** Whether construction launched `fetchAllCategories` (the refactoring flag). */
    const fetchLaunched: bool

    var myPhotosFetchedCategory: Option<Category>
    var onDeviceFetchedCategory: Option<Category>
    var thirdPartyFetchedCategory: seq<Category>
    var systemFetchedCategories: seq<Category>
    var thirdPartyLiveWallpaperFetchedCategories: seq<Category>
    var systemCategories: seq<CategoryModel>
    var myPhotosCategory: Option<CategoryModel>
    var onDeviceCategory: Option<CategoryModel>
    var thirdPartyAppCategory: seq<CategoryModel>
    var thirdPartyLiveWallpaperCategory: seq<CategoryModel>
    var isDefaultCategoriesFetched: bool
    var log: seq<string>

    function State(): RepositoryState
      reads this
    {
      RepositoryState(myPhotosFetchedCategory, onDeviceFetchedCategory, thirdPartyFetchedCategory,
        systemFetchedCategories, thirdPartyLiveWallpaperFetchedCategories, systemCategories,
        myPhotosCategory, onDeviceCategory, thirdPartyAppCategory, thirdPartyLiveWallpaperCategory,
        isDefaultCategoriesFetched, log)
    }

    /** Everything starts empty and not fetched; fetching is launched only with the refactoring flag on. */
    constructor (client: CategoryClient, factory: CategoryFactory, refactoringEnabled: bool)
      ensures this.client == client && this.factory == factory
      ensures State() == InitialState
      ensures fetchLaunched == refactoringEnabled
    {
      this.client, this.factory := client, factory;
      fetchLaunched := refactoringEnabled;
      myPhotosFetchedCategory, onDeviceFetchedCategory := None, None;
      thirdPartyFetchedCategory, systemFetchedCategories, thirdPartyLiveWallpaperFetchedCategories := [], [], [];
      systemCategories, myPhotosCategory, onDeviceCategory := [], None, None;
      thirdPartyAppCategory, thirdPartyLiveWallpaperCategory := [], [];
      isDefaultCategoriesFetched := false;
      log := [];
    }

    method FetchAllCategories()
      modifies this
      ensures State() == FetchAll(old(State()), client, factory)
    {
      FetchSystemCategories();
      FetchMyPhotosCategory();
      FetchOnDeviceCategory();
      FetchThirdPartyAppCategory();
      FetchThirdPartyLiveWallpaperCategory();
      isDefaultCategoriesFetched := true;
    }

    method FetchSystemCategories()
      modifies this
      ensures State() == FetchSystem(old(State()), client, factory)
    {
      match client.systemCategories
      case Thrown(_) =>
        log := log + [SystemError];
      case Ok(raw) =>
        systemFetchedCategories := raw;
        match MapCategories(factory, raw)
        case None =>
          log := log + [SystemError];
        case Some(models) =>
          systemCategories := models;
    }

    method FetchMyPhotosCategory()
      modifies this
      ensures State() == FetchMyPhotos(old(State()), client, factory)
    {
      match client.myPhotosCategory
      case Thrown(_) =>
        log := log + [MyPhotosError];
      case Ok(raw) =>
        myPhotosFetchedCategory := raw;
        match MapOptional(factory, raw)
        case None =>
          log := log + [MyPhotosError];
        case Some(model) =>
          myPhotosCategory := model;
    }

    method FetchOnDeviceCategory()
      modifies this
      ensures State() == FetchOnDevice(old(State()), client, factory)
    {
      match client.onDeviceCategory
      case Thrown(_) =>
        log := log + [OnDeviceError];
      case Ok(raw) =>
        onDeviceFetchedCategory := raw;
        match MapOptional(factory, raw)
        case None =>
          log := log + [OnDeviceError];
        case Some(model) =>
          onDeviceCategory := model;
    }

    method FetchThirdPartyAppCategory()
      modifies this
      ensures State() == FetchThirdPartyApp(old(State()), client, factory)
    {
      match client.excludedThirdPartyPackageNames
      case Thrown(_) =>
        log := log + [ThirdPartyAppError];
      case Ok(excluded) =>
        match client.thirdPartyCategory(excluded)
        case Thrown(_) =>
          log := log + [ThirdPartyAppError];
        case Ok(raw) =>
          thirdPartyFetchedCategory := raw;
          match MapCategories(factory, raw)
          case None =>
            log := log + [ThirdPartyAppError];
          case Some(models) =>
            thirdPartyAppCategory := models;
    }

    method FetchThirdPartyLiveWallpaperCategory()
      modifies this
      ensures State() == FetchThirdPartyLive(old(State()), client, factory)
    {
      match client.excludedLiveWallpaperPackageNames
      case Thrown(_) =>
        log := log + [ThirdPartyLiveError];
      case Ok(excluded) =>
        match client.thirdPartyLiveWallpaperCategory(excluded)
        case Thrown(_) =>
          log := log + [ThirdPartyLiveError];
        case Ok(raw) =>
          thirdPartyLiveWallpaperFetchedCategories := raw;
          match MapCategories(factory, raw)
          case None =>
            log := log + [ThirdPartyLiveError];
          case Some(models) =>
            thirdPartyLiveWallpaperCategory := models;
    }

    /** `refreshNetworkCategories` does nothing. */
    method RefreshNetworkCategories()
      ensures State() == old(State())
    {
    }
  }
}
