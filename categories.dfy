/**
 * Category value types: the legacy `Category` the clients return and the
 * `CategoryModel` the UI consumes, with platform objects (ResolveInfo,
 * assets, drawables) reduced to identities.
 */
module Categories {
  import opened Wrappers
  import opened Wallpapers

  /** The legacy category object returned by the category clients. */
  datatype Category = Category(title: string, collectionId: string, priority: int)

  datatype ResolveInfo = ResolveInfo(packageName: string, activityName: string)
  datatype Asset = Asset(id: string)
  datatype Drawable = Drawable(id: string)

  datatype CommonCategoryData = CommonCategoryData(title: string, collectionId: string, priority: int)
  datatype CollectionCategoryData = CollectionCategoryData(
    wallpaperModels: seq<WallpaperModel>,
    thumbAsset: Option<Asset>,
    isSingleWallpaperCategory: bool)
  datatype ImageCategoryData = ImageCategoryData(thumbnailAsset: Option<Asset>, defaultDrawable: Option<Drawable>)
  datatype ThirdPartyCategoryData = ThirdPartyCategoryData(resolveInfo: Option<ResolveInfo>)

  datatype CategoryModel = CategoryModel(
    commonCategoryData: CommonCategoryData,
    collectionCategoryData: Option<CollectionCategoryData>,
    imageCategoryData: Option<ImageCategoryData>,
    thirdPartyCategoryData: Option<ThirdPartyCategoryData>)

  /** `CategoryFactory.getCategoryModel`: `None` when the conversion throws. */
  type CategoryFactory = Category -> Option<CategoryModel>
}
