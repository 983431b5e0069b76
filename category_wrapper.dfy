/**
 * `DefaultWallpaperCategoryWrapper`: the legacy category list assembled from
 * the repository's raw fetched categories, and a by-collection-id lookup
 * whose map is built on the first call and kept from then on.
 */
module CategoryWrapper {
  import opened Wrappers
  import opened Categories
  import opened CategoryRepository

  function OptionalList(c: Option<Category>): (r: seq<Category>)
    ensures |r| == (if c.Some? then 1 else 0)
    ensures c.Some? ==> r[0] == c.value
  {
    if c.Some? then [c.value] else []
  }

  /**
   * `associateBy { it.collectionId }`: a map from each collection id in the
   * list to the LAST category carrying it.
   */
  function AssociateBy(categories: seq<Category>): (r: map<string, Category>)
    ensures forall id :: id in r <==> exists i :: 0 <= i < |categories| && categories[i].collectionId == id
    ensures forall id :: id in r ==> r[id].collectionId == id && r[id] in categories
  {
    if |categories| == 0 then map[]
    else
      var init := categories[..|categories| - 1];
      var last := categories[|categories| - 1];
      var r := AssociateBy(init)[last.collectionId := last];
      assert forall id :: id in r ==> r[id] in categories by {
        forall id | id in r ensures r[id] in categories {
          if id != last.collectionId {
            assert r[id] in init;
          }
        }
      }
      assert forall i :: 0 <= i < |init| ==> categories[i] == init[i];
      r
  }

  /** Last one wins: a later category with the same collection id replaces an earlier one. */
  lemma {:induction false} AssociateByLastWins(categories: seq<Category>, i: int)
    requires 0 <= i < |categories|
    requires forall j :: i < j < |categories| ==> categories[j].collectionId != categories[i].collectionId
    ensures AssociateBy(categories)[categories[i].collectionId] == categories[i]
  {
    if i < |categories| - 1 {
      var init := categories[..|categories| - 1];
      assert forall j :: i < j < |init| ==> init[j] == categories[j];
      AssociateByLastWins(init, i);
    }
  }

  /** `refreshLiveWallpaperCategories` is not implemented and throws. */
  function RefreshLiveWallpaperCategories(): (r: Outcome<()>)
    ensures r.Thrown?
  {
    Thrown("NotImplementedError")
  }

  class DefaultWallpaperCategoryWrapper {
    const repository: DefaultWallpaperCategoryRepository
    var categoryMap: Option<map<string, Category>>

    constructor (repository: DefaultWallpaperCategoryRepository)
      ensures this.repository == repository
      ensures categoryMap == None
    {
      this.repository := repository;
      categoryMap := None;
    }

    /**
     * `getCategories`: my photos (when present), on device (when present),
     * third-party apps, system, third-party live, each block in the
     * repository's order; the refresh flag is ignored.
     */
    function GetCategories(forceRefreshLiveWallpaperCategories: bool): (r: seq<Category>)
      reads repository
      ensures var head := |OptionalList(repository.myPhotosFetchedCategory)| + |OptionalList(repository.onDeviceFetchedCategory)|;
        var systemStart := head + |repository.thirdPartyFetchedCategory|;
        var liveStart := systemStart + |repository.systemFetchedCategories|;
        |r| == liveStart + |repository.thirdPartyLiveWallpaperFetchedCategories| &&
        (repository.myPhotosFetchedCategory.Some? ==> r[0] == repository.myPhotosFetchedCategory.value) &&
        (repository.onDeviceFetchedCategory.Some? ==> r[head - 1] == repository.onDeviceFetchedCategory.value) &&
        r[head..systemStart] == repository.thirdPartyFetchedCategory &&
        r[systemStart..liveStart] == repository.systemFetchedCategories &&
        r[liveStart..] == repository.thirdPartyLiveWallpaperFetchedCategories
    {
      var myPhotos := OptionalList(repository.myPhotosFetchedCategory);
      var onDevice := OptionalList(repository.onDeviceFetchedCategory);
      var r := myPhotos + onDevice + repository.thirdPartyFetchedCategory +
        repository.systemFetchedCategories + repository.thirdPartyLiveWallpaperFetchedCategories;
      var head := |myPhotos| + |onDevice|;
      var systemStart := head + |repository.thirdPartyFetchedCategory|;
      var liveStart := systemStart + |repository.systemFetchedCategories|;
      assert r[..head] == myPhotos + onDevice;
      assert r[head..systemStart] == repository.thirdPartyFetchedCategory;
      assert r[systemStart..liveStart] == repository.systemFetchedCategories;
      assert r[liveStart..] == repository.thirdPartyLiveWallpaperFetchedCategories;
      r
    }

    /**
     * `getCategory`: the first call builds the map from the list it is given;
     * every call answers from that map, whatever list it is given later.
     */
    method GetCategory(categories: seq<Category>, collectionId: string, forceRefreshLiveWallpaperCategories: bool)
      returns (r: Option<Category>)
      modifies this
      ensures old(categoryMap).None? ==> categoryMap == Some(AssociateBy(categories))
      ensures old(categoryMap).Some? ==> categoryMap == old(categoryMap)
      ensures r == if collectionId in categoryMap.value then Some(categoryMap.value[collectionId]) else None
    {
      if categoryMap.None? {
        categoryMap := Some(AssociateBy(categories));
      }
      var m := categoryMap.value;
      r := if collectionId in m then Some(m[collectionId]) else None;
    }
  }

  /** The force-refresh flag has no effect on the list. */
  lemma ForceRefreshIgnored(wrapper: DefaultWallpaperCategoryWrapper)
    ensures wrapper.GetCategories(true) == wrapper.GetCategories(false)
  {
  }

  /**
   * The memoised map goes stale: after a first lookup on `[first]`, a lookup
   * of a different collection in `[second]` finds nothing, while the first
   * collection is still found even when it is absent from the list given.
   */
  method StaleMapScenario(repository: DefaultWallpaperCategoryRepository, first: Category, second: Category)
    returns (found: Option<Category>, missed: Option<Category>, stillFound: Option<Category>)
    requires first.collectionId != second.collectionId
    ensures found == Some(first)
    ensures missed == None
    ensures stillFound == Some(first)
  {
    var wrapper := new DefaultWallpaperCategoryWrapper(repository);
    found := wrapper.GetCategory([first], first.collectionId, false);
    missed := wrapper.GetCategory([second], second.collectionId, false);
    stillFound := wrapper.GetCategory([second], first.collectionId, false);
  }
}
