/**
 * `StaticPreviewViewModel`, as its tests pin it down: which static wallpaper a
 * HOME or LOCK view-model shows, and how the per-display-size crop map is
 * merged. The view-model's own source is not part of this model: the
 * selection, the crop-hint replacement on emission and the two merges are
 * what its tests assert; which fields each operation leaves alone is an
 * assumption about the absent implementation.
 */
module StaticPreview {
  import opened Wrappers
  import opened Wallpapers

  /** The static model a view-model for `screen` emits: its screen's wallpaper, when that one is static. */
  function StaticWallpaperModelFor(screen: Screen, wallpapers: WallpaperModelsPair): (r: Option<StaticWallpaperModel>)
  {
    var w := if screen == HomeScreen then Some(wallpapers.homeWallpaper) else wallpapers.lockWallpaper;
    if w.Some? && w.value.Static? then Some(w.value.staticModel) else None
  }

  /**
   * HOME emits the home wallpaper's static model and LOCK the lock
   * wallpaper's; LOCK emits null when there is no separate lock wallpaper;
   * a live wallpaper yields null.
   */
  lemma StaticWallpaperModelSelection(screen: Screen, wallpapers: WallpaperModelsPair)
    ensures screen == HomeScreen && wallpapers.homeWallpaper.Static? ==>
              StaticWallpaperModelFor(screen, wallpapers) == Some(wallpapers.homeWallpaper.staticModel)
    ensures screen == LockScreen && wallpapers.lockWallpaper.Some? && wallpapers.lockWallpaper.value.Static? ==>
              StaticWallpaperModelFor(screen, wallpapers) == Some(wallpapers.lockWallpaper.value.staticModel)
    ensures screen == LockScreen && wallpapers.lockWallpaper.None? ==> StaticWallpaperModelFor(screen, wallpapers) == None
    ensures (if screen == HomeScreen then wallpapers.homeWallpaper.Live?
             else wallpapers.lockWallpaper.Some? && wallpapers.lockWallpaper.value.Live?) ==>
              StaticWallpaperModelFor(screen, wallpapers) == None
  {
  }

  /** Crop hints of a loaded static model, as crop models without crop geometry. */
  function CropModelsOf(cropHints: map<Point, Rect>): (r: map<Point, FullPreviewCropModel>)
    ensures r.Keys == cropHints.Keys
    ensures forall p :: p in r ==> r[p] == FullPreviewCropModel(cropHints[p], None)
  {
    map p | p in cropHints :: FullPreviewCropModel(cropHints[p], None)
  }

  /** A single crop hint becomes a single crop model for the same size. */
  lemma CropModelsOfSingle(size: Point, hint: Rect)
    ensures CropModelsOf(map[size := hint]) == map[size := FullPreviewCropModel(hint, None)]
  {
    var r := CropModelsOf(map[size := hint]);
    assert r.Keys == {size};
    assert r[size] == FullPreviewCropModel(hint, None);
  }

  /**
   * `updateCropHintsInfo(incoming, updateDefaultCrop)`: with the default flag
   * only sizes not yet present are added; without it, incoming entries are
   * added and replace existing ones.
   */
  function MergeCropHints(current: map<Point, FullPreviewCropModel>, incoming: map<Point, FullPreviewCropModel>, updateDefaultCrop: bool)
    : (r: map<Point, FullPreviewCropModel>)
  {
    if updateDefaultCrop then incoming + current else current + incoming
  }

  /** `updateDefaultPreviewCropModel(size, model)`: fills in the size only if it is missing. */
  function WithDefaultCrop(current: map<Point, FullPreviewCropModel>, size: Point, model: FullPreviewCropModel)
    : (r: map<Point, FullPreviewCropModel>)
  {
    if size in current then current else current[size := model]
  }

  /** Both merges cover exactly the sizes of both maps; they differ only on sizes present in both. */
  lemma MergeCropHintsEntries(current: map<Point, FullPreviewCropModel>, incoming: map<Point, FullPreviewCropModel>, updateDefaultCrop: bool)
    ensures MergeCropHints(current, incoming, updateDefaultCrop).Keys == current.Keys + incoming.Keys
    ensures forall p :: p in current && p !in incoming ==> MergeCropHints(current, incoming, updateDefaultCrop)[p] == current[p]
    ensures forall p :: p in incoming && p !in current ==> MergeCropHints(current, incoming, updateDefaultCrop)[p] == incoming[p]
    ensures updateDefaultCrop ==> forall p :: p in current ==> MergeCropHints(current, incoming, updateDefaultCrop)[p] == current[p]
    ensures !updateDefaultCrop ==> forall p :: p in incoming ==> MergeCropHints(current, incoming, updateDefaultCrop)[p] == incoming[p]
  {
  }

  /**
   * Filling in a default crop is the default-flag merge of a one-entry map:
   * a present size changes nothing, a new size adds exactly that entry.
   */
  lemma DefaultCropIsDefaultMerge(current: map<Point, FullPreviewCropModel>, size: Point, model: FullPreviewCropModel)
    ensures WithDefaultCrop(current, size, model) == MergeCropHints(current, map[size := model], true)
    ensures size in current ==> WithDefaultCrop(current, size, model) == current
    ensures size !in current ==> WithDefaultCrop(current, size, model).Keys == current.Keys + {size} &&
                                 WithDefaultCrop(current, size, model)[size] == model
  {
    var single := map[size := model];
    var merged := MergeCropHints(current, single, true);
    assert merged.Keys == WithDefaultCrop(current, size, model).Keys;
    forall p | p in merged
      ensures merged[p] == WithDefaultCrop(current, size, model)[p]
    {
      if p in current {
      } else {
        assert p == size;
      }
    }
  }

  /** Applying a default-flag merge twice is the same as once: it is idempotent. */
  lemma DefaultMergeIdempotent(current: map<Point, FullPreviewCropModel>, incoming: map<Point, FullPreviewCropModel>)
    ensures MergeCropHints(MergeCropHints(current, incoming, true), incoming, true) == MergeCropHints(current, incoming, true)
  {
    var once := MergeCropHints(current, incoming, true);
    var twice := MergeCropHints(once, incoming, true);
    assert twice.Keys == once.Keys;
    forall p | p in twice ensures twice[p] == once[p] {
    }
  }

  class StaticPreviewViewModel {
    const screen: Screen
    var staticWallpaperModel: Option<StaticWallpaperModel>
    /** `cropHintsInfo`: the crop hints of the last loaded static model. */
    var cropHintsInfo: Option<map<Point, FullPreviewCropModel>>
    /** `fullPreviewCropModels`: the crop map maintained by the two update calls. */
    var fullPreviewCropModels: map<Point, FullPreviewCropModel>

    constructor (screen: Screen)
      ensures this.screen == screen
      ensures staticWallpaperModel == None && cropHintsInfo == None && fullPreviewCropModels == map[]
    {
      this.screen := screen;
      staticWallpaperModel, cropHintsInfo, fullPreviewCropModels := None, None, map[];
    }

    /**
     * The interactor emits a pair: the view-model keeps its screen's static
     * model and, when that model carries crop hints, replaces `cropHintsInfo`
     * with them, dropping the hints of any earlier model.
     */
    method OnWallpapersEmitted(wallpapers: WallpaperModelsPair)
      modifies this
      ensures staticWallpaperModel == StaticWallpaperModelFor(screen, wallpapers)
      ensures staticWallpaperModel.Some? && staticWallpaperModel.value.cropHints.Some? ==>
                cropHintsInfo == Some(CropModelsOf(staticWallpaperModel.value.cropHints.value))
      ensures !(staticWallpaperModel.Some? && staticWallpaperModel.value.cropHints.Some?) ==>
                cropHintsInfo == old(cropHintsInfo)
      ensures fullPreviewCropModels == old(fullPreviewCropModels)
    {
      staticWallpaperModel := StaticWallpaperModelFor(screen, wallpapers);
      if staticWallpaperModel.Some? && staticWallpaperModel.value.cropHints.Some? {
        cropHintsInfo := Some(CropModelsOf(staticWallpaperModel.value.cropHints.value));
      }
    }

    method UpdateCropHintsInfo(incoming: map<Point, FullPreviewCropModel>, updateDefaultCrop: bool)
      modifies this
      ensures fullPreviewCropModels == MergeCropHints(old(fullPreviewCropModels), incoming, updateDefaultCrop)
      ensures staticWallpaperModel == old(staticWallpaperModel) && cropHintsInfo == old(cropHintsInfo)
    {
      fullPreviewCropModels := MergeCropHints(fullPreviewCropModels, incoming, updateDefaultCrop);
    }

    method UpdateDefaultPreviewCropModel(size: Point, model: FullPreviewCropModel)
      modifies this
      ensures fullPreviewCropModels == WithDefaultCrop(old(fullPreviewCropModels), size, model)
      ensures staticWallpaperModel == old(staticWallpaperModel) && cropHintsInfo == old(cropHintsInfo)
    {
      if size !in fullPreviewCropModels {
        fullPreviewCropModels := fullPreviewCropModels[size := model];
      }
    }
  }

  /**
   * The sequence of the merge tests: after a first update with {A, B}, a
   * default-flag update with {B2, C} gives {A, B, C}, a plain update gives
   * {A, B2, C}; a default crop for B2's size keeps B.
   */
  method CropMergeScenario(sizeA: Point, sizeB: Point, sizeC: Point, a: FullPreviewCropModel, b: FullPreviewCropModel, b2: FullPreviewCropModel, c: FullPreviewCropModel)
    returns (withDefault: map<Point, FullPreviewCropModel>, replacing: map<Point, FullPreviewCropModel>, keptB: map<Point, FullPreviewCropModel>)
    requires sizeA != sizeB && sizeB != sizeC && sizeA != sizeC
    ensures withDefault == map[sizeA := a, sizeB := b, sizeC := c]
    ensures replacing == map[sizeA := a, sizeB := b2, sizeC := c]
    ensures keptB == map[sizeA := a, sizeB := b]
  {
    var first := map[sizeA := a, sizeB := b];
    var additional := map[sizeB := b2, sizeC := c];
    var vm := new StaticPreviewViewModel(HomeScreen);
    vm.UpdateCropHintsInfo(first, false);
    vm.UpdateCropHintsInfo(additional, true);
    withDefault := vm.fullPreviewCropModels;
    var vm2 := new StaticPreviewViewModel(HomeScreen);
    vm2.UpdateCropHintsInfo(first, false);
    vm2.UpdateCropHintsInfo(additional, false);
    replacing := vm2.fullPreviewCropModels;
    var vm3 := new StaticPreviewViewModel(HomeScreen);
    vm3.UpdateCropHintsInfo(first, false);
    vm3.UpdateDefaultPreviewCropModel(sizeB, b2);
    keptB := vm3.fullPreviewCropModels;
  }

  /**
   * The crop-hint emission tests: previewing a static model with hints
   * {1000x1000 -> (100, 200, 300, 400)} yields exactly those hints as crop
   * models; previewing a second model with hints {1500x1500 -> (200, 400,
   * 600, 800)} yields exactly the second hints, the first size gone.
   */
  method CropHintsEmissionScenario() returns (first: Option<map<Point, FullPreviewCropModel>>, second: Option<map<Point, FullPreviewCropModel>>)
    ensures first == Some(map[Point(1000, 1000) := FullPreviewCropModel(Rect(100, 200, 300, 400), None)])
    ensures second == Some(map[Point(1500, 1500) := FullPreviewCropModel(Rect(200, 400, 600, 800), None)])
    ensures second.Some? && Point(1000, 1000) !in second.value
  {
    var model1 := StaticWallpaperModel("testWallpaperId", "testCollection", Some(map[Point(1000, 1000) := Rect(100, 200, 300, 400)]));
    var model2 := StaticWallpaperModel("testWallpaperId", "testCollection", Some(map[Point(1500, 1500) := Rect(200, 400, 600, 800)]));
    var vm := new StaticPreviewViewModel(HomeScreen);
    vm.OnWallpapersEmitted(WallpaperModelsPair(Static(model1), None));
    first := vm.cropHintsInfo;
    CropModelsOfSingle(Point(1000, 1000), Rect(100, 200, 300, 400));
    vm.OnWallpapersEmitted(WallpaperModelsPair(Static(model2), None));
    second := vm.cropHintsInfo;
    CropModelsOfSingle(Point(1500, 1500), Rect(200, 400, 600, 800));
  }
}
