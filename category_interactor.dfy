/**
 * `CategoryInteractorImpl`: the ungrouped categories are the third-party app
 * categories followed by the system categories, as an insertion-ordered set,
 * with the on-device category added when there is one.
 */
module CategoryInteractor {
  import opened Wrappers
  import opened Categories
  import opened CategoryRepository

  predicate Distinct<T(==)>(s: seq<T>) {
    forall i, j :: 0 <= i < j < |s| ==> s[i] != s[j]
  }

  /**
   * `toSet()` on a list: an insertion-ordered set, so the first occurrence of
   * each element is kept, in list order.
   */
  function Dedup<T(==,!new)>(xs: seq<T>): (r: seq<T>)
    ensures Distinct(r)
    ensures forall x :: x in r <==> x in xs
    ensures |r| <= |xs|
  {
    if |xs| == 0 then []
    else
      var d := Dedup(xs[..|xs| - 1]);
      var last := xs[|xs| - 1];
      assert xs == xs[..|xs| - 1] + [last];
      if last in d then d else d + [last]
  }

  /** `set + element` on an insertion-ordered set: appended at the end when absent. */
  function AddIfAbsent<T(==,!new)>(s: seq<T>, e: T): (r: seq<T>)
    requires Distinct(s)
    ensures Distinct(r)
    ensures forall x :: x in r <==> x in s || x == e
    ensures s <= r
  {
    if e in s then s else s + [e]
  }

  /**
   * Insertion order: de-duplicating a longer list only appends, so the set
   * built from a prefix of the list is a prefix of the set built from all of it.
   */
  lemma {:induction false} DedupPrefix<T(!new)>(xs: seq<T>, n: nat)
    requires n <= |xs|
    ensures Dedup(xs[..n]) <= Dedup(xs)
    decreases |xs| - n
  {
    if n < |xs| {
      DedupPrefix(xs, n + 1);
      var p := xs[..n + 1];
      assert p[..|p| - 1] == xs[..n];
    } else {
      assert xs[..n] == xs;
    }
  }

  /** The flow's value for given third-party, on-device and system categories. */
  function CombinedCategories(thirdPartyAppCategory: seq<CategoryModel>, onDeviceCategory: Option<CategoryModel>,
                              systemCategories: seq<CategoryModel>): (r: seq<CategoryModel>)
    ensures Distinct(r)
  {
    var combinedSet := Dedup(thirdPartyAppCategory + systemCategories);
    if onDeviceCategory.Some? then AddIfAbsent(combinedSet, onDeviceCategory.value) else combinedSet
  }

  /**
   * The result holds each third-party, system and on-device category exactly
   * once and nothing else; its size is at most the sum of the inputs; the
   * third-party categories come first in their own order; and an on-device
   * category that is not also listed comes last.
   */
  lemma CombinedCategoriesContents(thirdPartyAppCategory: seq<CategoryModel>, onDeviceCategory: Option<CategoryModel>,
                                   systemCategories: seq<CategoryModel>)
    ensures forall c :: c in CombinedCategories(thirdPartyAppCategory, onDeviceCategory, systemCategories) <==>
              c in thirdPartyAppCategory || c in systemCategories || onDeviceCategory == Some(c)
    ensures |CombinedCategories(thirdPartyAppCategory, onDeviceCategory, systemCategories)| <=
              |thirdPartyAppCategory| + |systemCategories| + (if onDeviceCategory.Some? then 1 else 0)
    ensures Dedup(thirdPartyAppCategory) <= CombinedCategories(thirdPartyAppCategory, onDeviceCategory, systemCategories)
    ensures onDeviceCategory.Some? && onDeviceCategory.value !in thirdPartyAppCategory + systemCategories ==>
              var r := CombinedCategories(thirdPartyAppCategory, onDeviceCategory, systemCategories);
              |r| > 0 && r[|r| - 1] == onDeviceCategory.value
  {
    var xs := thirdPartyAppCategory + systemCategories;
    DedupPrefix(xs, |thirdPartyAppCategory|);
    assert xs[..|thirdPartyAppCategory|] == thirdPartyAppCategory;
    if onDeviceCategory.Some? && onDeviceCategory.value !in xs {
      assert onDeviceCategory.value !in Dedup(xs);
    }
  }

  class CategoryInteractorImpl {
    const repository: DefaultWallpaperCategoryRepository

    constructor (repository: DefaultWallpaperCategoryRepository)
      ensures this.repository == repository
    {
      this.repository := repository;
    }

    /** `categories`: the combination of the repository's latest published values. */
    function Categories(): (r: seq<CategoryModel>)
      reads repository
      ensures Distinct(r)
      ensures forall c :: c in repository.systemCategories ==> c in r
      ensures forall c :: c in repository.thirdPartyAppCategory ==> c in r
      ensures repository.onDeviceCategory.Some? ==> repository.onDeviceCategory.value in r
      ensures forall c :: c in r ==>
                c in repository.systemCategories || c in repository.thirdPartyAppCategory ||
                repository.onDeviceCategory == Some(c)
    {
      CombinedCategoriesContents(repository.thirdPartyAppCategory, repository.onDeviceCategory, repository.systemCategories);
      var r := CombinedCategories(repository.thirdPartyAppCategory, repository.onDeviceCategory, repository.systemCategories);
      r
    }
  }
}
