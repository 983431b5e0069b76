/**
 * `CategoriesViewModel`: turns the category lists into the sections of the
 * categories screen (creative, my photos, one per default category, one per
 * third-party app) and turns tile clicks into navigation events.
 * A tile's click lambda is represented by what it captured (`TileAction`).
 */
module CategoriesUi {
  import opened Wrappers
  import opened Wallpapers
  import opened Categories

  datatype NavigationEvent =
    | NavigateToWallpaperCollection(categoryId: string)
    | NavigateToPreviewScreen(wallpaperModel: WallpaperModel)
    | NavigateToPhotosPicker
    | NavigateToThirdParty(resolveInfo: ResolveInfo)

  /** What a tile's click lambda captured. */
  datatype TileAction =
    | OpenThirdParty(resolveInfo: Option<ResolveInfo>)
    | OpenCollection(collection: Option<CollectionCategoryData>, collectionId: string)
    | OpenPhotosPicker

  datatype TileViewModel = TileViewModel(
    defaultDrawable: Option<Drawable>,
    thumbnailAsset: Option<Asset>,
    text: string,
    onClicked: TileAction)

  datatype SectionViewModel = SectionViewModel(
    tileViewModels: seq<TileViewModel>,
    columnCount: int,
    sectionTitle: Option<string>)

  /** A click navigates, does nothing, or fails indexing an empty wallpaper list. */
  datatype ClickResult = Navigate(event: NavigationEvent) | NoEvent | IndexOutOfBounds

  function Click(action: TileAction): ClickResult {
    match action
    case OpenThirdParty(resolveInfo) =>
      if resolveInfo.Some? then Navigate(NavigateToThirdParty(resolveInfo.value)) else NoEvent
    case OpenCollection(collection, collectionId) =>
      if collection.Some? && collection.value.isSingleWallpaperCategory then
        if |collection.value.wallpaperModels| > 0 then Navigate(NavigateToPreviewScreen(collection.value.wallpaperModels[0]))
        else IndexOutOfBounds
      else Navigate(NavigateToWallpaperCollection(collectionId))
    case OpenPhotosPicker => Navigate(NavigateToPhotosPicker)
  }

  /** The tile shared by default and creative categories. */
  function CollectionTile(category: CategoryModel): (t: TileViewModel)
    ensures t.text == category.commonCategoryData.title && t.defaultDrawable.None?
  {
    var collection := category.collectionCategoryData;
    TileViewModel(None, if collection.Some? then collection.value.thumbAsset else None,
      category.commonCategoryData.title, OpenCollection(collection, category.commonCategoryData.collectionId))
  }

  function ThirdPartyCategorySections(categories: seq<CategoryModel>): (r: seq<SectionViewModel>)
    ensures |r| == |categories|
  {
    seq(|categories|, i requires 0 <= i < |categories| =>
      var category := categories[i];
      var data := category.thirdPartyCategoryData;
      SectionViewModel([TileViewModel(None, None, category.commonCategoryData.title,
        OpenThirdParty(if data.Some? then data.value.resolveInfo else None))], 1, None))
  }

  function DefaultCategorySections(categories: seq<CategoryModel>): (r: seq<SectionViewModel>)
    ensures |r| == |categories|
  {
    seq(|categories|, i requires 0 <= i < |categories| => SectionViewModel([CollectionTile(categories[i])], 1, None))
  }

  function CreativeSectionViewModel(categories: seq<CategoryModel>, creativeTitle: string): (r: SectionViewModel)
    ensures |r.tileViewModels| == |categories|
  {
    SectionViewModel(seq(|categories|, i requires 0 <= i < |categories| => CollectionTile(categories[i])), 3, Some(creativeTitle))
  }

  function MyPhotosSectionViewModel(category: CategoryModel, myPhotosTitle: string): (r: SectionViewModel)
    ensures |r.tileViewModels| == 1
  {
    var image := category.imageCategoryData;
    SectionViewModel([TileViewModel(
      if image.Some? then image.value.defaultDrawable else None,
      if image.Some? then image.value.thumbnailAsset else None,
      category.commonCategoryData.title, OpenPhotosPicker)], 3, Some(myPhotosTitle))
  }

  /** `sections`: creative, then my photos, then the default sections followed by the third-party ones. */
  function Sections(defaultCategories: seq<CategoryModel>, thirdPartyCategories: seq<CategoryModel>,
                    creativeCategories: seq<CategoryModel>, myPhotosCategory: CategoryModel,
                    creativeTitle: string, myPhotosTitle: string): (r: seq<SectionViewModel>)
    ensures |r| == 2 + |defaultCategories| + |thirdPartyCategories|
  {
    [CreativeSectionViewModel(creativeCategories, creativeTitle), MyPhotosSectionViewModel(myPhotosCategory, myPhotosTitle)]
      + (DefaultCategorySections(defaultCategories) + ThirdPartyCategorySections(thirdPartyCategories))
  }

  /**
   * The section layout: the creative section comes first, in three columns
   * under its title, one tile per creative category; the my-photos section is
   * second, in three columns with one tile; every default and every
   * third-party category then gets its own untitled one-column section with a
   * single tile titled by the category, default categories first.
   */
  lemma SectionsLayout(defaultCategories: seq<CategoryModel>, thirdPartyCategories: seq<CategoryModel>,
                       creativeCategories: seq<CategoryModel>, myPhotosCategory: CategoryModel,
                       creativeTitle: string, myPhotosTitle: string)
    ensures var r := Sections(defaultCategories, thirdPartyCategories, creativeCategories, myPhotosCategory, creativeTitle, myPhotosTitle);
      r[0].columnCount == 3 && r[0].sectionTitle == Some(creativeTitle) &&
      |r[0].tileViewModels| == |creativeCategories| &&
      (forall i :: 0 <= i < |creativeCategories| ==> r[0].tileViewModels[i].text == creativeCategories[i].commonCategoryData.title) &&
      r[1].columnCount == 3 && r[1].sectionTitle == Some(myPhotosTitle) &&
      r[1].tileViewModels[0].text == myPhotosCategory.commonCategoryData.title &&
      (forall i :: 0 <= i < |defaultCategories| ==>
        r[2 + i].columnCount == 1 && r[2 + i].sectionTitle.None? && |r[2 + i].tileViewModels| == 1 &&
        r[2 + i].tileViewModels[0].text == defaultCategories[i].commonCategoryData.title) &&
      (forall j :: 0 <= j < |thirdPartyCategories| ==>
        r[2 + |defaultCategories| + j].columnCount == 1 && r[2 + |defaultCategories| + j].sectionTitle.None? &&
        |r[2 + |defaultCategories| + j].tileViewModels| == 1 &&
        r[2 + |defaultCategories| + j].tileViewModels[0].text == thirdPartyCategories[j].commonCategoryData.title)
  {
  }

  /**
   * Clicking a default or creative category's tile opens the preview of its
   * first wallpaper when it is a single-wallpaper category (and fails on an
   * empty list), and otherwise opens the collection by its id.
   */
  lemma CollectionTileClick(category: CategoryModel)
    ensures var collection := category.collectionCategoryData;
      var single := collection.Some? && collection.value.isSingleWallpaperCategory;
      (single && |collection.value.wallpaperModels| > 0 ==>
         Click(CollectionTile(category).onClicked) == Navigate(NavigateToPreviewScreen(collection.value.wallpaperModels[0]))) &&
      (single && |collection.value.wallpaperModels| == 0 ==> Click(CollectionTile(category).onClicked) == IndexOutOfBounds) &&
      (!single ==> Click(CollectionTile(category).onClicked) == Navigate(NavigateToWallpaperCollection(category.commonCategoryData.collectionId)))
  {
  }

  /**
   * Clicking a third-party section's tile opens the app's activity when the
   * category carries one, and does nothing otherwise; the my-photos tile
   * always opens the photo picker.
   */
  lemma OtherTileClicks(thirdPartyCategories: seq<CategoryModel>, myPhotosCategory: CategoryModel, myPhotosTitle: string, j: int)
    requires 0 <= j < |thirdPartyCategories|
    ensures var data := thirdPartyCategories[j].thirdPartyCategoryData;
      var click := Click(ThirdPartyCategorySections(thirdPartyCategories)[j].tileViewModels[0].onClicked);
      (data.Some? && data.value.resolveInfo.Some? <==> click.Navigate?) &&
      (click.Navigate? ==> click.event == NavigateToThirdParty(data.value.resolveInfo.value))
    ensures Click(MyPhotosSectionViewModel(myPhotosCategory, myPhotosTitle).tileViewModels[0].onClicked) == Navigate(NavigateToPhotosPicker)
  {
  }

  class CategoriesViewModel {
    /** What has been emitted on `navigationEvents`, oldest first. */
    var navigationEvents: seq<NavigationEvent>

    constructor ()
      ensures navigationEvents == []
    {
      navigationEvents := [];
    }

    /** Invokes a tile's click lambda; a navigating click emits its event. */
    method OnTileClicked(tile: TileViewModel) returns (r: ClickResult)
      modifies this
      ensures r == Click(tile.onClicked)
      ensures navigationEvents == old(navigationEvents) + (if r.Navigate? then [r.event] else [])
    {
      r := Click(tile.onClicked);
      if r.Navigate? {
        navigationEvents := navigationEvents + [r.event];
      }
    }
  }

  /** Clicking a default collection tile and then the my-photos tile emits two events in order. */
  method ClickScenario(category: CategoryModel, myPhotosCategory: CategoryModel, myPhotosTitle: string)
    returns (events: seq<NavigationEvent>)
    requires category.collectionCategoryData.None?
    ensures events == [NavigateToWallpaperCollection(category.commonCategoryData.collectionId), NavigateToPhotosPicker]
  {
    var viewModel := new CategoriesViewModel();
    var _ := viewModel.OnTileClicked(DefaultCategorySections([category])[0].tileViewModels[0]);
    var _ := viewModel.OnTileClicked(MyPhotosSectionViewModel(myPhotosCategory, myPhotosTitle).tileViewModels[0]);
    events := viewModel.navigationEvents;
  }
}
