// The legacy `ImageSlideshowApp` of slideshow/src/slideshow/__main__.py as an
// object: its fields are updated in place by its handlers, and each method
// is proved to leave them as the matching function of `SlideshowLegacy`
// says. Loading a file, the clock and the canvas size are the parameters
// `screen`, `missing` and `now`, as there.

module SlideshowLegacyApp {
  import opened Wrappers
  import opened Text
  import opened SlideshowFavorites
  import opened SlideshowImages
  import opened SlideshowApp
  import opened SlideshowLegacy

  class LegacySlideshowApp {
    var images: seq<Path>
    var currentIndex: int
    var preloaded: map<int, Picture>
    var favorites: seq<int>
    var delay: real
    var autoStopDelay: int
    var brightness: real
    var loop: bool
    var autoStop: bool
    var stopTime: real
    var sortAscending: bool
    var preloadCount: int
    var timerRunning: bool
    var afterId: Option<Timer>
    var gifAfterId: Option<Timer>
    var photo: Option<Picture>
    var closing: bool

    /** The fields as a value. */
    function State(): Legacy
      reads this
    {
      Legacy(images, currentIndex, preloaded, favorites,
             LegacySettings(delay, autoStopDelay, brightness, loop, autoStop, stopTime, sortAscending, preloadCount),
             timerRunning, afterId, gifAfterId, photo, closing)
    }

    /** `__init__`, given the image list and favorites it loads. */
    constructor (images: seq<Path>, favorites: seq<int>, delay: real, autoStopDelay: Option<int>, preloadCount: int)
      ensures State() == LegacyInitial(images, favorites, delay, autoStopDelay, preloadCount)
    {
      this.delay := delay;
      timerRunning := true;
      loop := true;
      autoStop := false;
      stopTime := 0.0;
      this.autoStopDelay := if autoStopDelay.Some? then autoStopDelay.value else DefaultAutoStopDelay;
      currentIndex := 0;
      afterId := None;
      sortAscending := true;
      brightness := 1.0;
      preloaded := map[];
      gifAfterId := None;
      this.preloadCount := preloadCount;
      this.images := images;
      this.favorites := favorites;
      photo := None;
      closing := false;
    }

    /** `show_image(index, force_reload)` at wall-clock time `now`. */
    method ShowImage(index: int, forceReload: bool, screen: Screen, missing: set<Path>, now: real)
      modifies this
      ensures State() == Shown(old(State()), index, forceReload, screen, missing, now)
      decreases |images|, 2
    {
      if images == [] {
        return;
      }
      ghost var s0 := State();
      afterId, gifAfterId := None, None;
      if autoStop && stopTime != 0.0 && now >= stopTime {
        timerRunning := false;
        ShownStopsWhenDue(s0, index, forceReload, screen, missing, now);
        assert State() == s0.(afterId := None, gifAfterId := None, timerRunning := false);
        return;
      }
      currentIndex := if 0 <= index < |images| then index else 0;
      assert State() == Cleared(s0, Normalized(index, |s0.images|));
      ShowCurrent(forceReload, screen, missing, now);
    }

    /** The rest of `show_image`, once the index is set and the callbacks cancelled. */
    method ShowCurrent(forceReload: bool, screen: Screen, missing: set<Path>, now: real)
      requires 0 <= currentIndex < |images|
      modifies this
      ensures State() == ShownAt(old(State()), forceReload, screen, missing, now)
      decreases |images|, 1
    {
      var path := images[currentIndex];
      if !forceReload && currentIndex in preloaded {
        Paint(preloaded[currentIndex], forceReload, screen);
      } else if path in screen.decoded {
        ghost var s0 := State();
        var picture := screen.decoded[path];
        preloaded := preloaded[currentIndex := picture];
        assert State() == s0.(preloaded := s0.preloaded[s0.currentIndex := picture]);
        Paint(picture, forceReload, screen);
      } else if path in missing {
        DropAndShowNext(screen, missing, now);
      } else {
        Fail();
      }
    }

    /**
     * The handler of `FileNotFoundError`: the current image leaves the list
     * and the one now at its position (or the last) is shown; with none left
     * the application closes.
     */
    method DropAndShowNext(screen: Screen, missing: set<Path>, now: real)
      requires 0 <= currentIndex < |images|
      modifies this
      ensures var d := Dropped(old(State()));
        State() == if d.images == [] then d.(closing := true)
                   else Shown(d, if old(currentIndex) < |d.images| - 1 then old(currentIndex) else |d.images| - 1,
                              false, screen, missing, now)
      decreases |images|, 0
    {
      DropCurrent();
      if images == [] {
        closing := true;
        return;
      }
      ShowImage(if currentIndex < |images| - 1 then currentIndex else |images| - 1, false, screen, missing, now);
    }

    /** The part of `show_image` once the picture is in hand. */
    method Paint(picture: Picture, forceReload: bool, screen: Screen)
      requires images != []
      modifies this
      ensures State() == Painted(old(State()), picture, forceReload, screen)
    {
      if screen.width <= 1 || screen.height <= 1 {
        afterId := Some(Timer(CanvasRetryMs, Reshow(forceReload)));
        return;
      }
      if Animated(picture) {
        photo := None;
        var rendered := RenderFrames(picture);
        if !rendered {
          Fail();
          return;
        }
        photo := Some(picture);
        gifAfterId := Some(Timer(FirstFrameMs(picture), NextFrame));
      } else {
        photo := Some(picture);
      }
      PreloadNextImages(screen.decoded);
      if timerRunning && gifAfterId.None? && !Animated(picture) {
        afterId := Some(AdvanceTimer(delay));
      }
    }

    /** The handler of an unexpected error in `show_image`. */
    method Fail()
      modifies this
      ensures State() == Failed(old(State()))
    {
      if timerRunning {
        afterId := Some(Timer(ErrorRetryMs, AdvanceAuto));
      }
    }

    /** The handler of `FileNotFoundError`: the current image leaves the list. */
    method DropCurrent()
      requires 0 <= currentIndex < |images|
      modifies this
      ensures State() == Dropped(old(State()))
    {
      var i := currentIndex;
      images := images[..i] + images[i + 1..];
      preloaded := Shifted(preloaded, i);
      favorites := Reindexed(favorites, i);
    }

    /** `preload_next_images()` with the default count, over the pictures the files decode to. */
    method PreloadNextImages(decoded: map<Path, Picture>)
      modifies this
      ensures images == [] ==> State() == old(State())
      ensures images != [] ==>
        State() == old(State()).(preloaded := Preloaded(images, currentIndex, old(preloaded), loop, preloadCount, decoded))
    {
      if images == [] {
        return;
      }
      var n := |images|;
      var indices := CollectLegacyCandidates(currentIndex, n, preloadCount, loop, preloaded);
      var cache := LoadLegacyCandidates(preloaded, indices, images, decoded);
      var keep := KeysToKeep(currentIndex, preloadCount, n);
      cache := Evict(cache, keep);
      preloaded := cache;
    }

    /** `next_image` */
    method NextImage(screen: Screen, missing: set<Path>, now: real)
      modifies this
      ensures State() == AfterLegacyNext(old(State()), screen, missing, now)
    {
      if images == [] {
        return;
      }
      ghost var s0 := State();
      timerRunning, afterId, gifAfterId := false, None, None;
      assert State() == Paused(s0);
      var next := (currentIndex + 1) % |images|;
      if !loop && currentIndex == |images| - 1 {
        return;
      }
      ShowImage(next, false, screen, missing, now);
    }

    /** `previous_image` */
    method PreviousImage(screen: Screen, missing: set<Path>, now: real)
      modifies this
      ensures State() == AfterLegacyPrevious(old(State()), screen, missing, now)
    {
      if images == [] {
        return;
      }
      ghost var s0 := State();
      timerRunning, afterId, gifAfterId := false, None, None;
      assert State() == Paused(s0);
      var previous := (currentIndex - 1 + |images|) % |images|;
      if !loop && currentIndex == 0 {
        return;
      }
      ShowImage(previous, false, screen, missing, now);
    }

    /** `next_image_auto` */
    method NextImageAuto(screen: Screen, missing: set<Path>, now: real)
      modifies this
      ensures State() == AfterLegacyNextAuto(old(State()), screen, missing, now)
    {
      ghost var s0 := State();
      if images == [] {
        timerRunning := false;
        assert State() == s0.(timerRunning := false);
        return;
      }
      if !loop && currentIndex >= |images| - 1 {
        timerRunning := false;
        afterId := None;
        assert State() == s0.(timerRunning := false, afterId := None);
        return;
      }
      ShowImage((currentIndex + 1) % |images|, false, screen, missing, now);
    }

    /** `toggle_timer` */
    method ToggleTimer(screen: Screen, missing: set<Path>, now: real)
      modifies this
      ensures State() == AfterLegacyToggleTimer(old(State()), screen, missing, now)
    {
      timerRunning := !timerRunning;
      if timerRunning {
        afterId := None;
        ShowImage(currentIndex, false, screen, missing, now);
      } else {
        afterId, gifAfterId := None, None;
      }
    }

    /** `increase_speed` */
    method IncreaseSpeed()
      modifies this
      ensures State() == AfterLegacyIncreaseSpeed(old(State()))
    {
      var d := RoundTenth(delay - LegacySpeedStep);
      delay := if d > LegacyMinDelay then d else LegacyMinDelay;
      if timerRunning && afterId.Some? {
        afterId := Some(AdvanceTimer(delay));
      }
    }

    /** `decrease_speed` */
    method DecreaseSpeed()
      modifies this
      ensures State() == AfterLegacyDecreaseSpeed(old(State()))
    {
      delay := RoundTenth(delay + LegacySpeedStep);
      if timerRunning && afterId.Some? {
        afterId := Some(AdvanceTimer(delay));
      }
    }

    /** `increase_brightness` */
    method IncreaseBrightness(screen: Screen, missing: set<Path>, now: real)
      modifies this
      ensures State() == AfterLegacyIncreaseBrightness(old(State()), screen, missing, now)
    {
      ghost var s0 := State();
      var b := RoundTenth(brightness + LegacyBrightnessStep);
      brightness := if LegacyMaxBrightness < b then LegacyMaxBrightness else b;
      assert State() == s0.(settings := s0.settings.(brightness := brightness));
      ShowImage(currentIndex, true, screen, missing, now);
    }

    /** `decrease_brightness` */
    method DecreaseBrightness(screen: Screen, missing: set<Path>, now: real)
      modifies this
      ensures State() == AfterLegacyDecreaseBrightness(old(State()), screen, missing, now)
    {
      ghost var s0 := State();
      var b := RoundTenth(brightness - LegacyBrightnessStep);
      brightness := if LegacyMinBrightness > b then LegacyMinBrightness else b;
      assert State() == s0.(settings := s0.settings.(brightness := brightness));
      ShowImage(currentIndex, true, screen, missing, now);
    }

    /** `toggle_favorite` */
    method ToggleFavorite()
      modifies this
      ensures State() == AfterLegacyToggleFavorite(old(State()))
    {
      if images == [] || !(0 <= currentIndex < |images|) {
        return;
      }
      var changed, sorted := SlideshowFavorites.ToggleFavorite(currentIndex, favorites);
      favorites := sorted;
    }

    /** `shuffle_images`, with `shuffled` the order the random shuffle produced. */
    method ShuffleImages(shuffled: seq<Path>, screen: Screen, missing: set<Path>, now: real)
      modifies this
      ensures State() == AfterLegacyShuffle(old(State()), shuffled, screen, missing, now)
    {
      if images == [] {
        return;
      }
      Regroup(shuffled);
      ShowImage(0, false, screen, missing, now);
    }

    /** `sort_images`, with `ctimes` the creation times of the files that still exist. */
    method SortImages(ctimes: map<Path, real>, screen: Screen, missing: set<Path>, now: real)
      modifies this
      ensures State() == AfterLegacySort(old(State()), ctimes, screen, missing, now)
    {
      if images == [] || !AllStamped(images, ctimes) {
        return;
      }
      var ascending := sortAscending;
      Regroup(SortByTime(images, ctimes, ascending));
      sortAscending := !ascending;
      ShowImage(0, false, screen, missing, now);
    }

    /** The list in a new order, the cache cleared, the favorites re-derived and the index reset. */
    method Regroup(order: seq<Path>)
      modifies this
      ensures State() == Regrouped(old(State()), order)
    {
      var paths := FavoritedPaths(images, favorites);
      images := order;
      preloaded := map[];
      favorites := SortInts(IndicesIn(images, paths));
      currentIndex := 0;
    }
  }

  /** Whether every frame of an animation can be made into a photo, frame by frame. */
  method RenderFrames(picture: Picture) returns (rendered: bool)
    ensures rendered == Renders(picture)
  {
    var k := 0;
    while k < |picture.frames|
      invariant 0 <= k <= |picture.frames|
      invariant forall j :: 0 <= j < k ==> picture.frames[j].renders
    {
      if !picture.frames[k].renders {
        return false;
      }
      k := k + 1;
    }
    return true;
  }

  /**
   * The loop of the legacy `preload_next_images` that picks the indices to
   * load; it also stops once it holds `count` indices, which can only
   * happen at the last step.
   */
  method CollectLegacyCandidates<P>(currentIndex: int, n: int, count: int, loop: bool, cache: map<int, P>)
    returns (indices: seq<int>)
    requires n > 0
    ensures indices == Candidates(currentIndex, n, count, loop, cache.Keys, 1)
  {
    indices := [];
    var i := 1;
    while i <= count
      invariant 1 <= i && (i == 1 || i <= count + 1)
      invariant |indices| < i
      invariant indices + Candidates(currentIndex, n, count, loop, cache.Keys, i)
             == Candidates(currentIndex, n, count, loop, cache.Keys, 1)
      decreases count - i
    {
      var next := Ahead(currentIndex, i, n);
      ghost var here := if next in cache then [] else [next];
      ghost var before := indices;
      if next !in cache {
        indices := indices + [next];
      }
      assert indices == before + here;
      if !loop && currentIndex + i >= n - 1 {
        assert Candidates(currentIndex, n, count, loop, cache.Keys, i) == here;
        return;
      }
      ghost var rest := Candidates(currentIndex, n, count, loop, cache.Keys, i + 1);
      assert Candidates(currentIndex, n, count, loop, cache.Keys, i) == here + rest;
      AppendAssoc(before, here, rest);
      if |indices| >= count {
        assert rest == [];
        return;
      }
      i := i + 1;
    }
  }

  /**
   * The loading loop of the legacy `preload_next_images`: an index already
   * in the cache is skipped, which leaves it as loading it again would.
   */
  method LoadLegacyCandidates<P>(cache: map<int, P>, indices: seq<int>, images: seq<Path>, decoded: map<Path, P>)
    returns (c: map<int, P>)
    requires InBounds(indices, |images|)
    requires forall k :: k in indices ==> k !in cache
    ensures c == LoadInto(cache, indices, images, decoded)
  {
    c := cache;
    var j := 0;
    while j < |indices|
      invariant 0 <= j <= |indices|
      invariant c == LoadInto(cache, indices[..j], images, decoded)
      invariant forall k :: k in c && k !in cache ==> 0 <= k < |images| && images[k] in decoded && c[k] == decoded[images[k]]
    {
      var k := indices[j];
      assert indices[..j + 1][..j] == indices[..j];
      if k in c {
        assert k !in cache;
        assert c[k := decoded[images[k]]] == c;
        j := j + 1;
        continue;
      }
      if images[k] in decoded {
        c := c[k := decoded[images[k]]];
      } else {
        assert c - {k} == c;
      }
      j := j + 1;
    }
    assert indices[..j] == indices;
  }

  /** `get_hud_shortcut_text`: the shortcuts taken `k` at a time, each group on its own line. */
  method HudShortcutLines(shortcuts: seq<string>, k: nat) returns (lines: seq<string>)
    requires k > 0
    ensures lines == ShortcutRows(shortcuts, k)
  {
    lines := [];
    var i := 0;
    while i < |shortcuts|
      invariant 0 <= i
      invariant lines + RowsFrom(shortcuts, i, k) == RowsFrom(shortcuts, 0, k)
      decreases |shortcuts| - i
    {
      var row := JoinWith(PySlice(shortcuts, i, i + k), ShortcutSeparator);
      RowsFromStep(shortcuts, i, k);
      AppendAssoc(lines, [row], RowsFrom(shortcuts, i + k, k));
      lines := lines + [row];
      i := i + k;
    }
    RowsFromStart(shortcuts, k);
  }

  lemma RowsFromStart(items: seq<string>, k: nat)
    requires k > 0
    ensures RowsFrom(items, 0, k) == ShortcutRows(items, k)
  {
    assert items[0..] == items;
  }

  /** Python's `items[i:j]` for `0 <= i <= j`: the end is cut back to the length. */
  function PySlice(items: seq<string>, i: nat, j: nat): (r: seq<string>)
    requires i <= j
    ensures i <= |items| ==> r == items[i..if j < |items| then j else |items|]
  {
    if i >= |items| then [] else items[i..if j < |items| then j else |items|]
  }

  /** The rows still to come from position `i` on. */
  function RowsFrom(items: seq<string>, i: nat, k: nat): seq<string>
    requires k > 0
  {
    if i < |items| then ShortcutRows(items[i..], k) else []
  }

  /** The rows from `i` on: the slice `items[i:i+k]` joined, then the rows from `i + k` on. */
  lemma RowsFromStep(items: seq<string>, i: nat, k: nat)
    requires k > 0 && i < |items|
    ensures RowsFrom(items, i, k) == [JoinWith(PySlice(items, i, i + k), ShortcutSeparator)] + RowsFrom(items, i + k, k)
  {
    var rest := items[i..];
    if i + k < |items| {
      assert rest[..k] == items[i..i + k];
      assert rest[k..] == items[i + k..];
    } else {
      assert rest == items[i..|items|];
    }
  }

  /** The text `get_hud_shortcut_text` returns. */
  method HudShortcutText() returns (text: string)
    ensures text == LegacyShortcutText()
  {
    var lines := HudShortcutLines(LegacyShortcuts, ShortcutsPerLine);
    if lines == [] {
      return "";
    }
    text := Join(lines, '\n');
  }
}
