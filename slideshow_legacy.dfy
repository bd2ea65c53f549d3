// The earlier, single-file version of the slideshow
// (slideshow/src/slideshow/__main__.py): its `ImageSlideshowApp` keeps the
// same list, index, cache and timer fields as the package version, but
// removes an image whose file has gone, re-derives the favorites after a
// shuffle or a sort, rounds the delay and the brightness to a tenth, and
// starts from a `--start-index`.
//
// As in `SlideshowApp`, a pending Tk callback is a `Timer` naming its delay
// and what it does, and the files are a `Screen`: the pictures the files
// that open decode to, and the canvas size. The files that are gone
// (`FileNotFoundError`) are the set `missing`; a file in neither fails with
// some other error. The state is the value `Legacy`; the class
// `LegacySlideshowApp` (slideshow_legacy_app.dfy) holds the same fields and
// its methods are proved to leave them as the functions here say.

module SlideshowLegacy {
  import opened Wrappers
  import opened Text
  import opened SlideshowFavorites
  import opened SlideshowImages
  import opened SlideshowApp

  /** The wait before trying the next image after an unexpected error, in ms. */
  const ErrorRetryMs := 100
  const LegacyPreloadCount := 20
  const LegacyMinDelay := 0.1
  const LegacySpeedStep := 0.5
  const LegacyMinBrightness := 0.1
  const LegacyMaxBrightness := 2.0
  const LegacyBrightnessStep := 0.1
  const StartIndexMessage := "Error: --start-index cannot be negative."

  /** The fields of the legacy `ImageSlideshowApp` that its logic reads or writes. */
  datatype Legacy = Legacy(
    images: seq<Path>, currentIndex: int, preloaded: map<int, Picture>, favorites: seq<int>,
    settings: LegacySettings, timerRunning: bool, afterId: Option<Timer>, gifAfterId: Option<Timer>,
    photo: Option<Picture>, closing: bool)

  /** The fields that only the settings handlers, the sort and `main` change. */
  datatype LegacySettings = LegacySettings(
    delay: real, autoStopDelay: int, brightness: real, loop: bool, autoStop: bool, stopTime: real,
    sortAscending: bool, preloadCount: int)

  /** `r` has the settings of `s`: what showing an image leaves alone. */
  predicate SameSettings(s: Legacy, r: Legacy)
  {
    r.settings == s.settings
  }

  /** The state `__init__` leaves, with the image list and favorites it loaded. */
  function LegacyInitial(images: seq<Path>, favorites: seq<int>, delay: real, autoStopDelay: Option<int>,
                         preloadCount: int): Legacy
  {
    var settings := LegacySettings(delay, autoStopDelay.GetOr(DefaultAutoStopDelay), 1.0, true, false, 0.0, true,
                                   preloadCount);
    Legacy(images, 0, map[], favorites, settings, true, None, None, None, false)
  }

  /* ---------------- show_image ---------------- */

  /** An unexpected error while showing: retry with the next image soon, if playing. */
  function Failed(s: Legacy): (r: Legacy)
    ensures r.(afterId := s.afterId) == s
  {
    if s.timerRunning then s.(afterId := Some(Timer(ErrorRetryMs, AdvanceAuto))) else s
  }

  /** Every frame of the picture can be made into a photo. */
  predicate Renders(picture: Picture)
  {
    forall k :: 0 <= k < |picture.frames| ==> picture.frames[k].renders
  }

  /** The duration of the first frame (100 ms when it has none). */
  function FirstFrameMs(picture: Picture): int
    requires |picture.frames| > 0
  {
    picture.frames[0].duration.GetOr(DefaultFrameDuration)
  }

  /**
   * The part of `show_image` after the picture is found: retry on a canvas
   * not laid out yet; an animation whose frames fail is an unexpected error
   * (the canvas is cleared first); otherwise show the picture, start the
   * animation at its second frame, preload, and schedule the advance for a
   * still picture.
   */
  function Painted(s: Legacy, picture: Picture, forceReload: bool, screen: Screen): (r: Legacy)
    ensures SameSettings(s, r) && r.images == s.images && r.currentIndex == s.currentIndex
    ensures r.favorites == s.favorites && r.timerRunning == s.timerRunning && r.closing == s.closing
    ensures screen.width > 1 && screen.height > 1 && (!Animated(picture) || Renders(picture)) ==>
      r.photo == Some(picture)
  {
    if screen.width <= 1 || screen.height <= 1 then
      s.(afterId := Some(Timer(CanvasRetryMs, Reshow(forceReload))))
    else if Animated(picture) && !Renders(picture) then Failed(s.(photo := None))
    else
      var s1 := s.(photo := Some(picture),
                   gifAfterId := if Animated(picture) then Some(Timer(FirstFrameMs(picture), NextFrame)) else s.gifAfterId);
      var s2 := s1.(preloaded := Preloaded(s1.images, s1.currentIndex, s1.preloaded, s1.settings.loop, s1.settings.preloadCount,
                                           screen.decoded));
      if s2.timerRunning && s2.gifAfterId.None? && !Animated(picture) then
        s2.(afterId := Some(AdvanceTimer(s2.settings.delay)))
      else s2
  }

  /** An index outside the list becomes 0. */
  function Normalized(index: int, n: int): (i: int)
    requires n > 0
    ensures 0 <= i < n
    ensures 0 <= index < n ==> i == index
  {
    if 0 <= index < n then index else 0
  }

  /** The list without the image at `i` (`images.pop(i)`). */
  function Removed(images: seq<Path>, i: int): (r: seq<Path>)
    requires 0 <= i < |images|
    ensures |r| == |images| - 1
    ensures forall k :: 0 <= k < |r| ==> r[k] == if k < i then images[k] else images[k + 1]
  {
    images[..i] + images[i + 1..]
  }

  /** The favorite positions after the image at `i` is removed, in their old order. */
  function Reindexed(favorites: seq<int>, i: int): seq<int>
    decreases |favorites|
  {
    if favorites == [] then []
    else
      var f := favorites[0];
      (if f == i then [] else if f < i then [f] else [f - 1]) + Reindexed(favorites[1..], i)
  }

  /** The cache with the entry at `i` gone and the entries above it moved down by one. */
  function Shifted<P>(cache: map<int, P>, i: int): map<int, P>
  {
    var keys := set k | k in cache && k != i :: if k < i then k else k - 1;
    map k | k in keys :: if k < i then cache[k] else cache[k + 1]
  }

  /**
   * Removing the current image after `FileNotFoundError`: the image goes,
   * its favorite is dropped and the favorites above it move down; the cache
   * entries above it move down too, so that the cache stays keyed by the
   * new positions.
   */
  function Dropped(s: Legacy): (r: Legacy)
    requires 0 <= s.currentIndex < |s.images|
    ensures SameSettings(s, r) && |r.images| == |s.images| - 1 && r.timerRunning == s.timerRunning
    ensures r.photo == s.photo && r.closing == s.closing
  {
    s.(images := Removed(s.images, s.currentIndex), preloaded := Shifted(s.preloaded, s.currentIndex),
       favorites := Reindexed(s.favorites, s.currentIndex))
  }

  /**
   * The removal as written: only the cache entry at the removed position is
   * deleted, so the entries above it stay under positions that now hold
   * the next image.
   */
  function DroppedAsWritten(s: Legacy): Legacy
    requires 0 <= s.currentIndex < |s.images|
  {
    s.(images := Removed(s.images, s.currentIndex), preloaded := s.preloaded - {s.currentIndex},
       favorites := Reindexed(s.favorites, s.currentIndex))
  }

  /** Leaving the pending callbacks cancelled and the index set to `i`. */
  function Cleared(s: Legacy, i: int): (r: Legacy)
    ensures SameSettings(s, r) && r.images == s.images && r.timerRunning == s.timerRunning
    ensures r.preloaded == s.preloaded && r.favorites == s.favorites && r.closing == s.closing
    ensures r.photo == s.photo && r.currentIndex == i
  {
    s.(afterId := None, gifAfterId := None, currentIndex := i)
  }

  /** The picture `show_image` uses for position `i`: the cached one unless forced, else the file's. */
  function PictureAt(s: Legacy, i: int, forceReload: bool, screen: Screen): Picture
    requires 0 <= i < |s.images| && ((!forceReload && i in s.preloaded) || s.images[i] in screen.decoded)
  {
    if !forceReload && i in s.preloaded then s.preloaded[i] else screen.decoded[s.images[i]]
  }

  /** The auto-stop time has come. */
  predicate StopDue(s: Legacy, now: real)
  {
    s.settings.autoStop && s.settings.stopTime != 0.0 && now >= s.settings.stopTime
  }

  /**
   * `show_image(index, force_reload)` at wall-clock time `now`. A file that
   * is gone is removed from the list and the image now at
   * `min(index, len - 1)` is shown instead; when none is left the
   * application closes.
   */
  function Shown(s: Legacy, index: int, forceReload: bool, screen: Screen, missing: set<Path>, now: real): (r: Legacy)
    ensures SameSettings(s, r)
    ensures |r.images| <= |s.images|
    ensures !s.timerRunning ==> !r.timerRunning
    decreases |s.images|, 1
  {
    if s.images == [] then s
    else if StopDue(s, now) then s.(afterId := None, gifAfterId := None, timerRunning := false)
    else ShownAt(Cleared(s, Normalized(index, |s.images|)), forceReload, screen, missing, now)
  }

  /**
   * The rest of `show_image` once the callbacks are cancelled and the index
   * is set.
   */
  function ShownAt(s: Legacy, forceReload: bool, screen: Screen, missing: set<Path>, now: real): (r: Legacy)
    requires 0 <= s.currentIndex < |s.images|
    ensures SameSettings(s, r)
    ensures |r.images| <= |s.images|
    ensures !s.timerRunning ==> !r.timerRunning
    decreases |s.images|, 0
  {
    var i := s.currentIndex;
    var path := s.images[i];
    if !forceReload && i in s.preloaded then Painted(s, s.preloaded[i], forceReload, screen)
    else if path in screen.decoded then
      var picture := screen.decoded[path];
      Painted(s.(preloaded := s.preloaded[i := picture]), picture, forceReload, screen)
    else if path in missing then
      var s2 := Dropped(s);
      if s2.images == [] then s2.(closing := true)
      else Shown(s2, if i < |s2.images| - 1 then i else |s2.images| - 1, false, screen, missing, now)
    else Failed(s)
  }

  /**
   * A picture that can be found is shown: the index is the requested one
   * (0 for one outside the list), nothing is removed, and the picture goes
   * on a laid-out canvas unless it is an animation whose frames fail.
   */
  lemma ShownLands(s: Legacy, index: int, forceReload: bool, screen: Screen, missing: set<Path>, now: real)
    requires s.images != [] && !StopDue(s, now)
    requires var i := Normalized(index, |s.images|);
      (!forceReload && i in s.preloaded) || s.images[i] in screen.decoded
    requires screen.width > 1 && screen.height > 1
    ensures var i := Normalized(index, |s.images|);
      var picture := PictureAt(s, i, forceReload, screen);
      var r := Shown(s, index, forceReload, screen, missing, now);
      r.images == s.images && r.currentIndex == i && r.favorites == s.favorites && r.closing == s.closing
      && (!Animated(picture) || Renders(picture) ==> r.photo == Some(picture))
  {
  }

  /**
   * What is scheduled after a picture is shown: the advance after `delay`
   * for a still picture when playing, nothing when paused, and the second
   * frame of an animation after the first frame's duration.
   */
  lemma ShownSchedules(s: Legacy, index: int, forceReload: bool, screen: Screen, missing: set<Path>, now: real)
    requires s.images != [] && !StopDue(s, now)
    requires var i := Normalized(index, |s.images|);
      (!forceReload && i in s.preloaded) || s.images[i] in screen.decoded
    requires screen.width > 1 && screen.height > 1
    ensures var picture := PictureAt(s, Normalized(index, |s.images|), forceReload, screen);
      var r := Shown(s, index, forceReload, screen, missing, now);
      (!Animated(picture) ==>
         r.gifAfterId.None? && r.afterId == (if s.timerRunning then Some(AdvanceTimer(s.settings.delay)) else None))
      && (Animated(picture) && Renders(picture) ==>
            r.afterId.None? && r.gifAfterId == Some(Timer(FirstFrameMs(picture), NextFrame)))
      && r.timerRunning == s.timerRunning
  {
  }

  /** When the auto-stop time has come, showing only stops the timer. */
  lemma ShownStopsWhenDue(s: Legacy, index: int, forceReload: bool, screen: Screen, missing: set<Path>, now: real)
    requires s.images != [] && StopDue(s, now)
    ensures Shown(s, index, forceReload, screen, missing, now)
      == s.(afterId := None, gifAfterId := None, timerRunning := false)
  {
  }

  /**
   * A file that is gone is removed: its image leaves the list, its favorite
   * is dropped and those above it move down, and the image now at
   * `min(i, len - 1)` is shown; with no image left the application closes.
   */
  lemma ShownDropsMissing(s: Legacy, index: int, forceReload: bool, screen: Screen, missing: set<Path>, now: real)
    requires s.images != [] && !StopDue(s, now)
    requires var i := Normalized(index, |s.images|);
      !(!forceReload && i in s.preloaded) && s.images[i] !in screen.decoded && s.images[i] in missing
    ensures var i := Normalized(index, |s.images|);
      var d := Dropped(Cleared(s, i));
      d.images == Removed(s.images, i) && d.favorites == Reindexed(s.favorites, i)
      && Shown(s, index, forceReload, screen, missing, now)
         == if d.images == [] then d.(closing := true)
            else Shown(d, if i < |d.images| - 1 then i else |d.images| - 1, false, screen, missing, now)
  {
  }

  /* ---------------- removing a missing image ---------------- */

  /** `x` is where a favorite ends up after the removal at `i`: itself below `i`, one lower above it. */
  predicate ReindexedFrom(x: int, favorites: seq<int>, i: int)
  {
    (x < i && x in favorites) || (x >= i && x + 1 in favorites)
  }

  /** The favorites after a removal at `i`: those below `i` stay, `i` goes, those above move down by one. */
  lemma {:induction false} ReindexedMembers(favorites: seq<int>, i: int)
    ensures forall x :: x in Reindexed(favorites, i) ==> ReindexedFrom(x, favorites, i)
    ensures forall y :: y in favorites ==>
      (y < i ==> y in Reindexed(favorites, i)) && (y > i ==> y - 1 in Reindexed(favorites, i))
    decreases |favorites|
  {
    if favorites != [] {
      var f := favorites[0];
      var tail := favorites[1..];
      ReindexedMembers(tail, i);
      assert favorites == [f] + tail;
    }
  }

  /** Only the entries naming `i` are lost. */
  lemma {:induction false} ReindexedCount(favorites: seq<int>, i: int)
    ensures |Reindexed(favorites, i)| == |favorites| - multiset(favorites)[i]
    decreases |favorites|
  {
    if favorites != [] {
      var tail := favorites[1..];
      ReindexedCount(tail, i);
      assert favorites == [favorites[0]] + tail;
      assert multiset(favorites) == multiset{favorites[0]} + multiset(tail);
    }
  }

  /** Sorted favorites stay sorted. */
  lemma {:induction false} ReindexedSorted(favorites: seq<int>, i: int)
    requires SortedInts(favorites)
    ensures SortedInts(Reindexed(favorites, i))
    decreases |favorites|
  {
    if favorites != [] {
      var f := favorites[0];
      var tail := favorites[1..];
      var head := if f == i then [] else if f < i then [f] else [f - 1];
      var rest := Reindexed(tail, i);
      assert SortedInts(tail);
      ReindexedSorted(tail, i);
      forall y | y in tail
        ensures f <= y
      {
        var m :| 0 <= m < |tail| && tail[m] == y;
        assert favorites[m + 1] == y;
      }
      ReindexedLowerBound(tail, i, f);
      SortedPrepend(head, rest);
    }
  }

  /** At most one value at or below every later one, before a sorted list, keeps it sorted. */
  lemma SortedPrepend(head: seq<int>, rest: seq<int>)
    requires |head| <= 1 && SortedInts(rest)
    requires forall x :: x in rest ==> forall y :: y in head ==> y <= x
    ensures SortedInts(head + rest)
  {
    var r := head + rest;
    forall a, b | 0 <= a < b < |r|
      ensures r[a] <= r[b]
    {
      if a < |head| {
        assert r[a] in head;
        assert r[b] == rest[b - 1] && rest[b - 1] in rest;
      } else {
        assert r[a] == rest[a - |head|] && r[b] == rest[b - |head|];
      }
    }
  }

  /** A bound below the remaining favorites stays below them after the removal, one lower when above `i`. */
  lemma ReindexedLowerBound(tail: seq<int>, i: int, f: int)
    requires forall y :: y in tail ==> f <= y
    ensures forall x :: x in Reindexed(tail, i) ==> (if f < i then f else f - 1) <= x
  {
    ReindexedMembers(tail, i);
    forall x | x in Reindexed(tail, i)
      ensures (if f < i then f else f - 1) <= x
    {
      if x < i && x in tail {
        assert f <= x;
      } else {
        assert x + 1 in tail;
        assert f <= x + 1;
      }
    }
  }

  /** The paths of the favorite positions that exist. */
  function FavoritedPaths(images: seq<Path>, favorites: seq<int>): set<Path>
  {
    set j | j in favorites && 0 <= j < |images| :: images[j]
  }

  /**
   * After a removal at `i` the favorites name the same files as before,
   * less the one removed.
   */
  lemma ReindexKeepsPaths(images: seq<Path>, favorites: seq<int>, i: int)
    requires 0 <= i < |images|
    ensures FavoritedPaths(Removed(images, i), Reindexed(favorites, i))
         == set f | f in favorites && 0 <= f < |images| && f != i :: images[f]
  {
    var after := Removed(images, i);
    var r := Reindexed(favorites, i);
    ReindexedMembers(favorites, i);
    var lhs := FavoritedPaths(after, r);
    var rhs := set f | f in favorites && 0 <= f < |images| && f != i :: images[f];
    forall p | p in lhs
      ensures p in rhs
    {
      var j :| j in r && 0 <= j < |after| && after[j] == p;
      assert j in Reindexed(favorites, i);
      assert (j < i && j in favorites) || (j >= i && j + 1 in favorites);
      var f := if j < i then j else j + 1;
      assert after[j] == images[f];
      assert f in favorites && 0 <= f < |images| && f != i && images[f] == p;
    }
    forall p | p in rhs
      ensures p in lhs
    {
      var f :| f in favorites && 0 <= f < |images| && f != i && images[f] == p;
      var j := if f < i then f else f - 1;
      assert j in r && 0 <= j < |after| && after[j] == p;
    }
  }

  /** With the cache shifted, a cache that matched the files still does after the removal. */
  lemma DroppedKeepsCache(s: Legacy, decoded: map<Path, Picture>)
    requires 0 <= s.currentIndex < |s.images| && CacheMatches(s.preloaded, s.images, decoded)
    ensures CacheMatches(Dropped(s).preloaded, Dropped(s).images, decoded)
  {
    var i := s.currentIndex;
    var c := Shifted(s.preloaded, i);
    var after := Removed(s.images, i);
    forall k | k in c
      ensures 0 <= k < |after| && after[k] in decoded && c[k] == decoded[after[k]]
    {
      var j :| j in s.preloaded && j != i && k == (if j < i then j else j - 1);
    }
  }

  /**
   * The stale cache of the removal as written: with `a` gone and `b`, `c`
   * cached under positions 1 and 2, `b` moves to position 0 and `c` to
   * position 1, yet showing position 1 puts `b`'s picture on the canvas.
   */
  lemma DropLeavesStalePicture(s: Legacy, a: Path, b: Path, c: Path, pb: Picture, pc: Picture, screen: Screen,
                               now: real)
    requires |{a, b, c}| == 3 && pb != pc && !pb.animated && !StopDue(s, now)
    requires s.images == [a, b, c] && s.currentIndex == 0 && s.preloaded == map[1 := pb, 2 := pc]
    requires screen.decoded == map[b := pb, c := pc] && screen.width > 1 && screen.height > 1
    ensures CacheMatches(s.preloaded, s.images, screen.decoded)
    ensures var d := DroppedAsWritten(s);
      var r := Shown(d, 1, false, screen, {a}, now);
      d.images == [b, c] && r.images == [b, c] && r.currentIndex == 1 && r.photo == Some(pb) && screen.decoded[c] == pc
  {
    var d := DroppedAsWritten(s);
    assert d.images == [b, c];
    assert d.preloaded == map[1 := pb, 2 := pc];
    assert !StopDue(d, now);
    assert PictureAt(d, 1, false, screen) == pb;
    ShownLands(d, 1, false, screen, {a}, now);
  }

  /** `r`'s cache matches the files, and a picture it put on the canvas is the current image's. */
  predicate KeptCache(s: Legacy, r: Legacy, decoded: map<Path, Picture>)
  {
    CacheMatches(r.preloaded, r.images, decoded)
    && (r.photo == s.photo || r.photo == None
        || (0 <= r.currentIndex < |r.images| && r.images[r.currentIndex] in decoded
            && r.photo == Some(decoded[r.images[r.currentIndex]])))
  }

  /**
   * Showing keeps a cache that matches the files matching, and a picture
   * put on the canvas is the decoded file of the image now current.
   */
  lemma {:induction false} ShownKeepsCache(s: Legacy, index: int, forceReload: bool, screen: Screen,
                                           missing: set<Path>, now: real)
    requires CacheMatches(s.preloaded, s.images, screen.decoded)
    ensures KeptCache(s, Shown(s, index, forceReload, screen, missing, now), screen.decoded)
    decreases |s.images|, 1
  {
    if s.images == [] || StopDue(s, now) {
    } else {
      var i := Normalized(index, |s.images|);
      var path := s.images[i];
      if (!forceReload && i in s.preloaded) || path in screen.decoded {
        FoundKeepsCache(s, index, forceReload, screen, missing, now);
      } else if path in missing && |s.images| == 1 {
        MissingClosesLast(s, index, forceReload, screen, missing, now);
      } else if path in missing {
        MissingKeepsCache(s, index, forceReload, screen, missing, now);
      } else {
        ShownFails(s, index, forceReload, screen, missing, now);
      }
    }
  }

  lemma {:induction false} MissingKeepsCache(s: Legacy, index: int, forceReload: bool, screen: Screen,
                                             missing: set<Path>, now: real)
    requires |s.images| > 1 && !StopDue(s, now) && CacheMatches(s.preloaded, s.images, screen.decoded)
    requires var i := Normalized(index, |s.images|);
      !(!forceReload && i in s.preloaded) && s.images[i] !in screen.decoded && s.images[i] in missing
    ensures KeptCache(s, Shown(s, index, forceReload, screen, missing, now), screen.decoded)
    decreases |s.images|, 0
  {
    var i := Normalized(index, |s.images|);
    var s1 := Cleared(s, i);
    var s2 := Dropped(s1);
    var j := if i < |s2.images| - 1 then i else |s2.images| - 1;
    ShownDropsMissing(s, index, forceReload, screen, missing, now);
    DroppedKeepsCache(s1, screen.decoded);
    ShownKeepsCache(s2, j, false, screen, missing, now);
    KeptAfterDrop(s, s2, Shown(s2, j, false, screen, missing, now), screen.decoded);
  }

  /** Dropping the only image closes the application over a cache that still matches. */
  lemma MissingClosesLast(s: Legacy, index: int, forceReload: bool, screen: Screen,
                          missing: set<Path>, now: real)
    requires |s.images| == 1 && !StopDue(s, now) && CacheMatches(s.preloaded, s.images, screen.decoded)
    requires var i := Normalized(index, |s.images|);
      !(!forceReload && i in s.preloaded) && s.images[i] !in screen.decoded && s.images[i] in missing
    ensures KeptCache(s, Shown(s, index, forceReload, screen, missing, now), screen.decoded)
  {
    var s1 := Cleared(s, Normalized(index, |s.images|));
    ShownDropsMissing(s, index, forceReload, screen, missing, now);
    DroppedKeepsCache(s1, screen.decoded);
  }

  /** What the shorter list keeps, the list before the removal keeps: the picture did not change. */
  lemma KeptAfterDrop(s: Legacy, s2: Legacy, r: Legacy, decoded: map<Path, Picture>)
    requires s2.photo == s.photo && KeptCache(s2, r, decoded)
    ensures KeptCache(s, r, decoded)
  {
  }

  /** A file that fails with another error changes only the retry callback. */
  lemma ShownFails(s: Legacy, index: int, forceReload: bool, screen: Screen, missing: set<Path>, now: real)
    requires s.images != [] && !StopDue(s, now)
    requires var i := Normalized(index, |s.images|);
      !(!forceReload && i in s.preloaded) && s.images[i] !in screen.decoded && s.images[i] !in missing
    ensures Shown(s, index, forceReload, screen, missing, now) == Failed(Cleared(s, Normalized(index, |s.images|)))
  {
  }

  lemma FoundKeepsCache(s: Legacy, index: int, forceReload: bool, screen: Screen, missing: set<Path>, now: real)
    requires s.images != [] && !StopDue(s, now) && CacheMatches(s.preloaded, s.images, screen.decoded)
    requires var i := Normalized(index, |s.images|);
      (!forceReload && i in s.preloaded) || s.images[i] in screen.decoded
    ensures KeptCache(s, Shown(s, index, forceReload, screen, missing, now), screen.decoded)
  {
    var i := Normalized(index, |s.images|);
    var s1 := Cleared(s, i);
    ShownFound(s, index, forceReload, screen, missing, now);
    var picture := PictureAt(s, i, forceReload, screen);
    var t := if !forceReload && i in s.preloaded then s1 else s1.(preloaded := s.preloaded[i := picture]);
    PaintedKeepsCache(t, picture, forceReload, screen);
  }

  /** A picture that can be found is painted, after being cached when it came from the file. */
  lemma ShownFound(s: Legacy, index: int, forceReload: bool, screen: Screen, missing: set<Path>, now: real)
    requires s.images != [] && !StopDue(s, now)
    requires var i := Normalized(index, |s.images|);
      (!forceReload && i in s.preloaded) || s.images[i] in screen.decoded
    ensures var i := Normalized(index, |s.images|);
      var picture := PictureAt(s, i, forceReload, screen);
      var s1 := Cleared(s, i);
      Shown(s, index, forceReload, screen, missing, now)
      == Painted(if !forceReload && i in s.preloaded then s1 else s1.(preloaded := s.preloaded[i := picture]),
                 picture, forceReload, screen)
  {
  }

  lemma PaintedKeepsCache(s: Legacy, picture: Picture, forceReload: bool, screen: Screen)
    requires 0 <= s.currentIndex < |s.images| && s.images[s.currentIndex] in screen.decoded
    requires picture == screen.decoded[s.images[s.currentIndex]]
    requires CacheMatches(s.preloaded, s.images, screen.decoded)
    ensures var r := Painted(s, picture, forceReload, screen);
      CacheMatches(r.preloaded, r.images, screen.decoded) && r.currentIndex == s.currentIndex
      && r.images == s.images && (r.photo == s.photo || r.photo == None || r.photo == Some(picture))
  {
    PreloadKeepsMatching(s.images, s.currentIndex, s.preloaded, s.settings.loop, s.settings.preloadCount, screen.decoded);
  }

  /* ---------------- next / previous / next_image_auto ---------------- */

  /** Manual navigation pauses: the timer stops and the pending callbacks are cancelled. */
  function Paused(s: Legacy): Legacy
  {
    s.(timerRunning := false, afterId := None, gifAfterId := None)
  }

  /** `next_image` */
  function AfterLegacyNext(s: Legacy, screen: Screen, missing: set<Path>, now: real): Legacy
  {
    if s.images == [] then s
    else
      var t := Paused(s);
      if !t.settings.loop && t.currentIndex == |t.images| - 1 then t
      else Shown(t, (t.currentIndex + 1) % |t.images|, false, screen, missing, now)
  }

  /** `previous_image` */
  function AfterLegacyPrevious(s: Legacy, screen: Screen, missing: set<Path>, now: real): Legacy
  {
    if s.images == [] then s
    else
      var t := Paused(s);
      if !t.settings.loop && t.currentIndex == 0 then t
      else Shown(t, (t.currentIndex - 1 + |t.images|) % |t.images|, false, screen, missing, now)
  }

  /** `next_image_auto` */
  function AfterLegacyNextAuto(s: Legacy, screen: Screen, missing: set<Path>, now: real): Legacy
  {
    if s.images == [] then s.(timerRunning := false)
    else if !s.settings.loop && s.currentIndex >= |s.images| - 1 then s.(timerRunning := false, afterId := None)
    else Shown(s, (s.currentIndex + 1) % |s.images|, false, screen, missing, now)
  }

  /**
   * `toggle_timer`: pausing cancels both pending callbacks; resuming
   * cancels the pending advance and shows the current image again, which
   * schedules the next advance.
   */
  function AfterLegacyToggleTimer(s: Legacy, screen: Screen, missing: set<Path>, now: real): Legacy
  {
    if s.timerRunning then Paused(s)
    else Shown(s.(timerRunning := true, afterId := None), s.currentIndex, false, screen, missing, now)
  }

  /**
   * Toggling the timer flips it: a pause leaves nothing scheduled, and a
   * resume on a still picture that can be found stays on the current image
   * and schedules the advance after `delay`.
   */
  lemma LegacyToggleTimerFlips(s: Legacy, screen: Screen, missing: set<Path>, now: real)
    ensures s.timerRunning ==>
      var r := AfterLegacyToggleTimer(s, screen, missing, now);
      !r.timerRunning && r.afterId.None? && r.gifAfterId.None? && r.(timerRunning := true, afterId := s.afterId,
      gifAfterId := s.gifAfterId) == s
    ensures !s.timerRunning && 0 <= s.currentIndex < |s.images| && !StopDue(s, now)
            && Findable(s, s.currentIndex, screen) && screen.width > 1 && screen.height > 1
            && !Animated(PictureAt(s, s.currentIndex, false, screen)) ==>
      var r := AfterLegacyToggleTimer(s, screen, missing, now);
      r.timerRunning && r.currentIndex == s.currentIndex && r.images == s.images
      && r.afterId == Some(AdvanceTimer(s.settings.delay))
  {
    if !s.timerRunning && 0 <= s.currentIndex < |s.images| && !StopDue(s, now)
       && Findable(s, s.currentIndex, screen) && screen.width > 1 && screen.height > 1 {
      var t := s.(timerRunning := true, afterId := None);
      assert PictureAt(t, s.currentIndex, false, screen) == PictureAt(s, s.currentIndex, false, screen);
      ShownLands(t, s.currentIndex, false, screen, missing, now);
      ShownSchedules(t, s.currentIndex, false, screen, missing, now);
    }
  }

  /** `(i + 1) % n` and `(i - 1 + n) % n` for a position `i` of the list. */
  lemma StepIndices(i: int, n: int)
    requires 0 <= i < n
    ensures (i + 1) % n == if i == n - 1 then 0 else i + 1
    ensures (i - 1 + n) % n == if i == 0 then n - 1 else i - 1
  {
    if i == n - 1 {
      ModUnique(i + 1, n, 1, 0);
    } else {
      ModUnique(i + 1, n, 0, i + 1);
    }
    if i == 0 {
      ModUnique(i - 1 + n, n, 0, n - 1);
    } else {
      ModUnique(i - 1 + n, n, 1, i - 1);
    }
  }

  /** The picture at position `i` can be found without a reload. */
  predicate Findable(s: Legacy, i: int, screen: Screen)
    requires 0 <= i < |s.images|
  {
    i in s.preloaded || s.images[i] in screen.decoded
  }

  /**
   * `next_image` always leaves the timer stopped; without looping it stays
   * on the last image, otherwise it moves one on, wrapping to the first.
   */
  lemma LegacyNextMoves(s: Legacy, screen: Screen, missing: set<Path>, now: real)
    requires s.images != [] && 0 <= s.currentIndex < |s.images|
    ensures !AfterLegacyNext(s, screen, missing, now).timerRunning
    ensures !s.settings.loop && s.currentIndex == |s.images| - 1 ==> AfterLegacyNext(s, screen, missing, now) == Paused(s)
    ensures var n := |s.images|; var j := if s.currentIndex == n - 1 then 0 else s.currentIndex + 1;
      (s.settings.loop || s.currentIndex < n - 1) && !StopDue(s, now) && Findable(s, j, screen)
      && screen.width > 1 && screen.height > 1 ==>
      AfterLegacyNext(s, screen, missing, now).currentIndex == j
  {
    var n := |s.images|;
    StepIndices(s.currentIndex, n);
    var t := Paused(s);
    if (s.settings.loop || s.currentIndex < n - 1) && !StopDue(s, now) {
      var j := if s.currentIndex == n - 1 then 0 else s.currentIndex + 1;
      if Findable(s, j, screen) && screen.width > 1 && screen.height > 1 {
        ShownLands(t, j, false, screen, missing, now);
      }
    }
  }

  /**
   * `previous_image` always leaves the timer stopped; without looping it
   * stays on the first image, otherwise it moves one back, wrapping to the
   * last.
   */
  lemma LegacyPreviousMoves(s: Legacy, screen: Screen, missing: set<Path>, now: real)
    requires s.images != [] && 0 <= s.currentIndex < |s.images|
    ensures !AfterLegacyPrevious(s, screen, missing, now).timerRunning
    ensures !s.settings.loop && s.currentIndex == 0 ==> AfterLegacyPrevious(s, screen, missing, now) == Paused(s)
    ensures var n := |s.images|; var j := if s.currentIndex == 0 then n - 1 else s.currentIndex - 1;
      (s.settings.loop || s.currentIndex > 0) && !StopDue(s, now) && Findable(s, j, screen)
      && screen.width > 1 && screen.height > 1 ==>
      AfterLegacyPrevious(s, screen, missing, now).currentIndex == j
  {
    var n := |s.images|;
    StepIndices(s.currentIndex, n);
    var t := Paused(s);
    if (s.settings.loop || s.currentIndex > 0) && !StopDue(s, now) {
      var j := if s.currentIndex == 0 then n - 1 else s.currentIndex - 1;
      if Findable(s, j, screen) && screen.width > 1 && screen.height > 1 {
        ShownLands(t, j, false, screen, missing, now);
      }
    }
  }

  /**
   * `next_image_auto` stops the timer with no images, and at the last
   * image when not looping (cancelling the pending advance); otherwise it
   * shows the next image, wrapping to the first.
   */
  lemma LegacyNextAutoMoves(s: Legacy, screen: Screen, missing: set<Path>, now: real)
    ensures s.images == [] ==> AfterLegacyNextAuto(s, screen, missing, now) == s.(timerRunning := false)
    ensures s.images != [] && !s.settings.loop && s.currentIndex >= |s.images| - 1 ==>
      AfterLegacyNextAuto(s, screen, missing, now) == s.(timerRunning := false, afterId := None)
    ensures s.images != [] && 0 <= s.currentIndex < |s.images| ==>
      var n := |s.images|; var j := if s.currentIndex == n - 1 then 0 else s.currentIndex + 1;
      (s.settings.loop || s.currentIndex < n - 1) && !StopDue(s, now) && Findable(s, j, screen)
      && screen.width > 1 && screen.height > 1 ==>
      AfterLegacyNextAuto(s, screen, missing, now).currentIndex == j
  {
    if s.images != [] && 0 <= s.currentIndex < |s.images| {
      var n := |s.images|;
      StepIndices(s.currentIndex, n);
      if (s.settings.loop || s.currentIndex < n - 1) && !StopDue(s, now) {
        var j := if s.currentIndex == n - 1 then 0 else s.currentIndex + 1;
        if Findable(s, j, screen) && screen.width > 1 && screen.height > 1 {
          ShownLands(s, j, false, screen, missing, now);
        }
      }
    }
  }

  /* ---------------- speed and brightness ---------------- */

  /** Python's `round(y)`: the nearest integer, the even one on a tie. */
  function RoundHalfEven(y: real): (n: int)
    ensures -0.5 <= y - n as real <= 0.5
    ensures (y - n as real == 0.5 || y - n as real == -0.5) ==> n % 2 == 0
  {
    var f := y.Floor;
    var d := y - f as real;
    if d < 0.5 then f else if d > 0.5 then f + 1 else if f % 2 == 0 then f else f + 1
  }

  /** Rounding an exact real to one decimal place: the nearest tenth, the even one on a tie. */
  function RoundTenth(x: real): (r: real)
    ensures -0.05 <= x - r <= 0.05
  {
    RoundHalfEven(x * 10.0) as real / 10.0
  }

  /** A whole number of tenths rounds to itself. */
  lemma RoundTenthExact(k: int)
    ensures RoundTenth(k as real / 10.0) == k as real / 10.0
  {
    assert (k as real / 10.0) * 10.0 == k as real;
    assert (k as real).Floor == k;
  }

  /** A new delay takes effect at once: a pending advance is rescheduled with it. */
  function Rescheduled(s: Legacy): Legacy
  {
    if s.timerRunning && s.afterId.Some? then s.(afterId := Some(AdvanceTimer(s.settings.delay))) else s
  }

  /** `increase_speed`: half a second less, rounded to a tenth, never below a tenth. */
  function AfterLegacyIncreaseSpeed(s: Legacy): Legacy
  {
    var d := RoundTenth(s.settings.delay - LegacySpeedStep);
    Rescheduled(s.(settings := s.settings.(delay := if d > LegacyMinDelay then d else LegacyMinDelay)))
  }

  /** `decrease_speed`: half a second more, rounded to a tenth. */
  function AfterLegacyDecreaseSpeed(s: Legacy): Legacy
  {
    Rescheduled(s.(settings := s.settings.(delay := RoundTenth(s.settings.delay + LegacySpeedStep))))
  }

  /**
   * The delay never drops below 0.1 s; from a whole number of tenths the
   * steps are exact, so a slower step undoes a faster one above 0.5 s, and
   * a pending advance is rescheduled with the new delay, and only then.
   */
  lemma LegacySpeedSteps(s: Legacy, k: int)
    requires s.settings.delay == k as real / 10.0
    ensures AfterLegacyIncreaseSpeed(s).settings.delay >= LegacyMinDelay
    ensures AfterLegacyIncreaseSpeed(s).settings.delay == (if k - 5 > 1 then k - 5 else 1) as real / 10.0
    ensures AfterLegacyDecreaseSpeed(s).settings.delay == (k + 5) as real / 10.0
    ensures k > 6 ==> AfterLegacyDecreaseSpeed(AfterLegacyIncreaseSpeed(s)).settings.delay == s.settings.delay
    ensures var r := AfterLegacyIncreaseSpeed(s);
      r.afterId == (if s.timerRunning && s.afterId.Some? then Some(AdvanceTimer(r.settings.delay)) else s.afterId)
    ensures var r := AfterLegacyDecreaseSpeed(s);
      r.afterId == (if s.timerRunning && s.afterId.Some? then Some(AdvanceTimer(r.settings.delay)) else s.afterId)
  {
    assert s.settings.delay - LegacySpeedStep == (k - 5) as real / 10.0;
    assert s.settings.delay + LegacySpeedStep == (k + 5) as real / 10.0;
    RoundTenthExact(k - 5);
    RoundTenthExact(k + 5);
    if k > 6 {
      var t := AfterLegacyIncreaseSpeed(s);
      assert t.settings.delay + LegacySpeedStep == k as real / 10.0;
      RoundTenthExact(k);
    }
  }

  /** `increase_brightness`: a tenth more, rounded to a tenth and capped at 2.0, then the image is reloaded. */
  function AfterLegacyIncreaseBrightness(s: Legacy, screen: Screen, missing: set<Path>, now: real): Legacy
  {
    var b := RoundTenth(s.settings.brightness + LegacyBrightnessStep);
    Shown(s.(settings := s.settings.(brightness := if LegacyMaxBrightness < b then LegacyMaxBrightness else b)),
          s.currentIndex, true, screen, missing, now)
  }

  /** `decrease_brightness`: a tenth less, rounded to a tenth, never below 0.1, then the image is reloaded. */
  function AfterLegacyDecreaseBrightness(s: Legacy, screen: Screen, missing: set<Path>, now: real): Legacy
  {
    var b := RoundTenth(s.settings.brightness - LegacyBrightnessStep);
    Shown(s.(settings := s.settings.(brightness := if LegacyMinBrightness > b then LegacyMinBrightness else b)),
          s.currentIndex, true, screen, missing, now)
  }

  /**
   * Brightness stays within [0.1, 2.0]: raising never passes 2.0, lowering
   * never passes 0.1, and from a whole number of tenths each step is one
   * tenth.
   */
  lemma LegacyBrightnessSteps(s: Legacy, screen: Screen, missing: set<Path>, now: real, k: int)
    requires s.settings.brightness == k as real / 10.0
    ensures var up := AfterLegacyIncreaseBrightness(s, screen, missing, now).settings.brightness;
      up <= LegacyMaxBrightness && up == (if k + 1 < 20 then k + 1 else 20) as real / 10.0
    ensures var down := AfterLegacyDecreaseBrightness(s, screen, missing, now).settings.brightness;
      down >= LegacyMinBrightness && down == (if k - 1 > 1 then k - 1 else 1) as real / 10.0
    ensures 1 <= k <= 20 ==>
      LegacyMinBrightness <= AfterLegacyIncreaseBrightness(s, screen, missing, now).settings.brightness
      && AfterLegacyDecreaseBrightness(s, screen, missing, now).settings.brightness <= LegacyMaxBrightness
  {
    assert s.settings.brightness + LegacyBrightnessStep == (k + 1) as real / 10.0;
    assert s.settings.brightness - LegacyBrightnessStep == (k - 1) as real / 10.0;
    RoundTenthExact(k + 1);
    RoundTenthExact(k - 1);
  }

  /* ---------------- toggle_favorite ---------------- */

  /** `toggle_favorite`: nothing without a valid current image, else the index flips and the list is sorted. */
  function AfterLegacyToggleFavorite(s: Legacy): Legacy
  {
    if s.images == [] || !(0 <= s.currentIndex < |s.images|) then s
    else s.(favorites := ToggleResult(s.currentIndex, s.favorites))
  }

  /**
   * Toggling changes only the favorites, and only for a valid current
   * image; then the list is sorted, the current index flips membership
   * (when it was there at most once) and no other index changes count.
   */
  lemma LegacyToggleFlips(s: Legacy)
    ensures var r := AfterLegacyToggleFavorite(s); r.(favorites := s.favorites) == s
    ensures s.images == [] || !(0 <= s.currentIndex < |s.images|) ==> AfterLegacyToggleFavorite(s) == s
    ensures 0 <= s.currentIndex < |s.images| ==>
      var r := AfterLegacyToggleFavorite(s).favorites;
      SortedInts(r) && multiset(r) == multiset(Toggled(s.currentIndex, s.favorites))
      && (multiset(s.favorites)[s.currentIndex] <= 1 ==>
            (s.currentIndex in r <==> s.currentIndex !in s.favorites)
            && forall y :: y != s.currentIndex ==> multiset(r)[y] == multiset(s.favorites)[y])
  {
    if 0 <= s.currentIndex < |s.images| {
      SortIntsSpec(Toggled(s.currentIndex, s.favorites));
      if multiset(s.favorites)[s.currentIndex] <= 1 {
        ToggleFlips(s.currentIndex, s.favorites);
      }
    }
  }

  /* ---------------- shuffle_images / sort_images ---------------- */

  /** The positions, in order, of the images whose path is in `paths`. */
  function IndicesIn(images: seq<Path>, paths: set<Path>): seq<int>
    decreases |images|
  {
    if images == [] then []
    else
      var n := |images|;
      IndicesIn(images[..n - 1], paths) + (if images[n - 1] in paths then [n - 1] else [])
  }

  /** The positions of the images in `paths`, increasing. */
  lemma {:induction false} IndicesInSpec(images: seq<Path>, paths: set<Path>)
    ensures forall i :: i in IndicesIn(images, paths) <==> 0 <= i < |images| && images[i] in paths
    ensures forall a, b :: 0 <= a < b < |IndicesIn(images, paths)| ==>
      IndicesIn(images, paths)[a] < IndicesIn(images, paths)[b]
    decreases |images|
  {
    if images != [] {
      var n := |images|;
      var prefix := IndicesIn(images[..n - 1], paths);
      IndicesInSpec(images[..n - 1], paths);
      forall i | 0 <= i < n - 1
        ensures images[..n - 1][i] == images[i]
      {
      }
      var r := IndicesIn(images, paths);
      forall a, b | 0 <= a < b < |r|
        ensures r[a] < r[b]
      {
        assert r[a] == prefix[a] && prefix[a] in prefix;
        if b >= |prefix| {
          assert r[b] == n - 1;
        } else {
          assert r[b] == prefix[b];
        }
      }
    }
  }

  /**
   * The list in a new order with the cache cleared, the favorites re-derived
   * from the paths that were favorites, and the index back at 0.
   */
  function Regrouped(s: Legacy, order: seq<Path>): Legacy
  {
    s.(images := order, preloaded := map[],
       favorites := SortInts(IndicesIn(order, FavoritedPaths(s.images, s.favorites))), currentIndex := 0)
  }

  /**
   * Reordering keeps the set of favorited files: the new favorites are
   * sorted, without repeats, in range, and name exactly the files that
   * were favorites.
   */
  lemma RegroupKeepsFavorites(s: Legacy, order: seq<Path>)
    requires multiset(order) == multiset(s.images)
    ensures var r := Regrouped(s, order);
      FavoritedPaths(r.images, r.favorites) == FavoritedPaths(s.images, s.favorites)
      && SortedInts(r.favorites) && NoDuplicates(r.favorites)
      && (forall j :: j in r.favorites ==> 0 <= j < |order|)
      && r.preloaded == map[] && r.currentIndex == 0
  {
    var paths := FavoritedPaths(s.images, s.favorites);
    var indices := IndicesIn(order, paths);
    IndicesInSpec(order, paths);
    SortSorted(indices);
    var r := Regrouped(s, order);
    assert r.favorites == indices;
    forall p | p in paths
      ensures p in FavoritedPaths(order, indices)
    {
      var j :| j in s.favorites && 0 <= j < |s.images| && s.images[j] == p;
      assert p in multiset(s.images);
      assert p in multiset(order);
      var k :| 0 <= k < |order| && order[k] == p;
      assert k in indices;
    }
  }

  /** `shuffle_images`, with `shuffled` the order the random shuffle produced. */
  function AfterLegacyShuffle(s: Legacy, shuffled: seq<Path>, screen: Screen, missing: set<Path>, now: real): Legacy
  {
    if s.images == [] then s
    else Shown(Regrouped(s, shuffled), 0, false, screen, missing, now)
  }

  /**
   * `sort_images` by the creation times `ctimes`, in the order
   * `sort_ascending` asks for; a file that has gone leaves everything as
   * it was, and only a sort that happened flips the order for next time.
   */
  function AfterLegacySort(s: Legacy, ctimes: map<Path, real>, screen: Screen, missing: set<Path>, now: real): Legacy
  {
    if s.images == [] || !AllStamped(s.images, ctimes) then s
    else
      var t := Regrouped(s, SortByTime(s.images, ctimes, s.settings.sortAscending));
      Shown(t.(settings := t.settings.(sortAscending := !s.settings.sortAscending)), 0, false, screen, missing, now)
  }

  /**
   * Sorting flips `sort_ascending` exactly when it sorted, and the list it
   * then shows from is the old one ordered by time in the direction asked
   * for, with the favorited files kept.
   */
  lemma LegacySortToggles(s: Legacy, ctimes: map<Path, real>, screen: Screen, missing: set<Path>, now: real)
    ensures AfterLegacySort(s, ctimes, screen, missing, now).settings.sortAscending
         == (if s.images != [] && AllStamped(s.images, ctimes) then !s.settings.sortAscending else s.settings.sortAscending)
    ensures s.images == [] || !AllStamped(s.images, ctimes) ==> AfterLegacySort(s, ctimes, screen, missing, now) == s
    ensures s.images != [] && AllStamped(s.images, ctimes) ==>
      var t := Regrouped(s, SortByTime(s.images, ctimes, s.settings.sortAscending));
      multiset(t.images) == multiset(s.images)
      && (forall i, j :: 0 <= i < j < |t.images| ==>
            if s.settings.sortAscending then MTime(ctimes, t.images[i]) <= MTime(ctimes, t.images[j])
            else MTime(ctimes, t.images[i]) >= MTime(ctimes, t.images[j]))
      && FavoritedPaths(t.images, t.favorites) == FavoritedPaths(s.images, s.favorites)
  {
    if s.images != [] && AllStamped(s.images, ctimes) {
      SortImagesByTimeSpec(s.images, ctimes, s.settings.sortAscending);
      RegroupKeepsFavorites(s, SortByTime(s.images, ctimes, s.settings.sortAscending));
    }
  }

  /* ---------------- get_hud_shortcut_text ---------------- */

  const LegacyShortcuts: seq<string> := [
    "Spc: Play/Pause", "\U{2190}/\U{2192}: Prev/Next", "Q/Esc: Quit", "H: Toggle Help",
    "S: Shuffle", "T: Sort(Time)", "J: Jump", "F: Fullscreen",
    "+/-: Speed", "L/K: Brightness", "I: Image Info", "B: Loop",
    "A: AutoStop", "W: AlwaysOnTop", "Z: Favorite \U{2605}", "Y: Yoink (macOS)"]
  const ShortcutsPerLine := 4
  const ShortcutSeparator := "  |  "

  /** The items cut into consecutive groups of `k`, the last one possibly shorter. */
  function Chunks(items: seq<string>, k: nat): seq<seq<string>>
    requires k > 0
    decreases |items|
  {
    if items == [] then [] else if |items| <= k then [items] else [items[..k]] + Chunks(items[k..], k)
  }

  /** The shortcut lines: each chunk joined with the separator. */
  function ShortcutRows(items: seq<string>, k: nat): seq<string>
    requires k > 0
    decreases |items|
  {
    if items == [] then []
    else if |items| <= k then [JoinWith(items, ShortcutSeparator)]
    else [JoinWith(items[..k], ShortcutSeparator)] + ShortcutRows(items[k..], k)
  }

  /** The shortcut lines joined by newlines. */
  function LegacyShortcutText(): string
  {
    var rows := ShortcutRows(LegacyShortcuts, ShortcutsPerLine);
    if rows == [] then "" else Join(rows, '\n')
  }

  /**
   * The rows are the chunks of at most `k` items joined: all but the last
   * hold exactly `k`, and together they hold every item in order.
   */
  lemma {:induction false} ChunksSpec(items: seq<string>, k: nat)
    requires k > 0
    ensures var c := Chunks(items, k);
      |ShortcutRows(items, k)| == |c|
      && (forall j :: 0 <= j < |c| ==> ShortcutRows(items, k)[j] == JoinWith(c[j], ShortcutSeparator))
      && (forall j :: 0 <= j < |c| ==> 0 < |c[j]| <= k && (j < |c| - 1 ==> |c[j]| == k))
      && Flatten(c) == items
    decreases |items|
  {
    if |items| > k {
      ChunksSpec(items[k..], k);
      assert items == items[..k] + items[k..];
    }
  }

  function Flatten(chunks: seq<seq<string>>): seq<string>
  {
    if chunks == [] then [] else chunks[0] + Flatten(chunks[1..])
  }

  /**
   * The legacy help text: four lines of four shortcuts each, in order,
   * split back into exactly those lines at the newlines.
   */
  lemma LegacyShortcutLines()
    ensures var rows := ShortcutRows(LegacyShortcuts, ShortcutsPerLine);
      |rows| == 4 && Split(LegacyShortcutText(), '\n') == rows
      && forall j :: 0 <= j < 4 ==> rows[j] == JoinWith(LegacyShortcuts[4 * j..4 * j + 4], ShortcutSeparator)
  {
    ShortcutsLack();
    LinesOfFullRows(LegacyShortcuts, 4);
  }

  /** With `4 * n` items the rows are `n` groups of four, in order. */
  lemma {:induction false} FullRows(items: seq<string>, n: nat)
    requires |items| == 4 * n
    ensures |ShortcutRows(items, 4)| == n
    ensures forall j :: 0 <= j < n ==> ShortcutRows(items, 4)[j] == JoinWith(items[4 * j..4 * j + 4], ShortcutSeparator)
    decreases n
  {
    if n == 1 {
      assert items[0..4] == items;
    } else if n > 1 {
      var rows := ShortcutRows(items, 4);
      FullRows(items[4..], n - 1);
      forall j | 1 <= j < n
        ensures rows[j] == JoinWith(items[4 * j..4 * j + 4], ShortcutSeparator)
      {
        assert items[4..][4 * (j - 1)..4 * (j - 1) + 4] == items[4 * j..4 * j + 4];
      }
      assert items[..4] == items[0..4];
    }
  }

  /** Rows of items without a newline split back into exactly those rows. */
  lemma LinesOfFullRows(items: seq<string>, n: nat)
    requires |items| == 4 * n && n > 0
    requires Lacks(ShortcutSeparator, '\n') && forall m :: 0 <= m < |items| ==> Lacks(items[m], '\n')
    ensures var rows := ShortcutRows(items, 4);
      |rows| == n && Split(Join(rows, '\n'), '\n') == rows
      && forall j :: 0 <= j < n ==> rows[j] == JoinWith(items[4 * j..4 * j + 4], ShortcutSeparator)
  {
    var rows := ShortcutRows(items, 4);
    FullRows(items, n);
    forall j | 0 <= j < n
      ensures Lacks(rows[j], '\n')
    {
      var part := items[4 * j..4 * j + 4];
      assert forall m :: 0 <= m < |part| ==> Lacks(part[m], '\n') by {
        forall m | 0 <= m < |part|
          ensures Lacks(part[m], '\n')
        {
          assert part[m] == items[4 * j + m];
        }
      }
      JoinWithLacks(part, ShortcutSeparator, '\n');
    }
    SplitJoin(rows, '\n');
  }

  lemma ShortcutsLack()
    ensures forall m :: 0 <= m < |LegacyShortcuts| ==> Lacks(LegacyShortcuts[m], '\n')
    ensures Lacks(ShortcutSeparator, '\n')
  {
    assert Lacks("Spc: Play/Pause", '\n') && Lacks("\U{2190}/\U{2192}: Prev/Next", '\n');
    assert Lacks("Q/Esc: Quit", '\n') && Lacks("H: Toggle Help", '\n');
    assert Lacks("S: Shuffle", '\n') && Lacks("T: Sort(Time)", '\n');
    assert Lacks("J: Jump", '\n') && Lacks("F: Fullscreen", '\n');
    assert Lacks("+/-: Speed", '\n') && Lacks("L/K: Brightness", '\n');
    assert Lacks("I: Image Info", '\n') && Lacks("B: Loop", '\n');
    assert Lacks("A: AutoStop", '\n') && Lacks("W: AlwaysOnTop", '\n');
    assert Lacks("Z: Favorite \U{2605}", '\n') && Lacks("Y: Yoink (macOS)", '\n');
    assert Lacks(ShortcutSeparator, '\n');
  }

  /* ---------------- main ---------------- */

  /** The command-line arguments `main` uses. */
  datatype LegacyArgs = LegacyArgs(delay: real, autoStop: Option<int>, startIndex: int, preloadCount: int,
                                   shuffle: bool)

  /** How `main` ends: an exit status with what it wrote to stderr, or a running slideshow. */
  datatype Launch = Exited(status: int, message: string) | Running(state: Legacy)

  /** The start index: taken when in range, 0 for another non-zero one, otherwise left as it is. */
  function StartAt(startIndex: int, n: int, current: int): int
  {
    if 0 <= startIndex < n then startIndex else if startIndex != 0 then 0 else current
  }

  /** `main` after the application is built: the optional shuffle, the start index and the auto-stop. */
  function Prepared(s: Legacy, args: LegacyArgs, shuffled: seq<Path>, screen: Screen, missing: set<Path>,
                    now: real): Legacy
  {
    var s1 := if args.shuffle then AfterLegacyShuffle(s, shuffled, screen, missing, now) else s;
    var s2 := s1.(currentIndex := StartAt(args.startIndex, |s1.images|, s1.currentIndex));
    if args.autoStop.Some? then s2.(settings := s2.settings.(autoStop := true, stopTime := now + s2.settings.autoStopDelay as real))
    else s2
  }

  /**
   * `main` as written: with `--shuffle` the image shown is the one the
   * shuffle showed, at position 0, whatever the start index moved the
   * position to.
   */
  function LaunchedAsWritten(images: seq<Path>, favorites: seq<int>, args: LegacyArgs, shuffled: seq<Path>,
                             screen: Screen, missing: set<Path>, now: real): Launch
  {
    if args.startIndex < 0 then Exited(1, StartIndexMessage)
    else
      var s := LegacyInitial(images, favorites, args.delay, args.autoStop, args.preloadCount);
      if s.images == [] then Exited(1, "")
      else
        var p := Prepared(s, args, shuffled, screen, missing, now);
        Running(if args.shuffle then p else Shown(p, p.currentIndex, false, screen, missing, now))
  }

  /** `main` with the image at the chosen start position shown in both cases. */
  function Launched(images: seq<Path>, favorites: seq<int>, args: LegacyArgs, shuffled: seq<Path>,
                    screen: Screen, missing: set<Path>, now: real): Launch
  {
    if args.startIndex < 0 then Exited(1, StartIndexMessage)
    else
      var s := LegacyInitial(images, favorites, args.delay, args.autoStop, args.preloadCount);
      if s.images == [] then Exited(1, "")
      else
        var p := Prepared(s, args, shuffled, screen, missing, now);
        Running(Shown(p, p.currentIndex, false, screen, missing, now))
  }

  /** Every file decodes to a picture that renders, on a laid-out canvas. */
  predicate AllShowable(images: seq<Path>, screen: Screen)
  {
    screen.width > 1 && screen.height > 1
    && forall k :: 0 <= k < |images| ==> images[k] in screen.decoded && Renders(screen.decoded[images[k]])
  }

  /**
   * A negative start index exits with status 1 and the error message; with
   * every file showable, the slideshow starts at the start index when it
   * is in range and at 0 otherwise, showing that image.
   */
  lemma LaunchStarts(images: seq<Path>, favorites: seq<int>, args: LegacyArgs, shuffled: seq<Path>,
                     screen: Screen, missing: set<Path>, now: real)
    ensures args.startIndex < 0 ==>
      Launched(images, favorites, args, shuffled, screen, missing, now) == Exited(1, StartIndexMessage)
    ensures args.startIndex >= 0 && images == [] ==>
      Launched(images, favorites, args, shuffled, screen, missing, now) == Exited(1, "")
    ensures (args.startIndex >= 0 && images != [] && AllShowable(images, screen)
             && (args.shuffle ==> multiset(shuffled) == multiset(images))
             && (args.autoStop.None? || args.autoStop.value > 0)) ==>
      var l := Launched(images, favorites, args, shuffled, screen, missing, now);
      l.Running? && l.state.currentIndex == (if args.startIndex < |images| then args.startIndex else 0)
      && multiset(l.state.images) == multiset(images)
      && 0 <= l.state.currentIndex < |l.state.images| && l.state.images[l.state.currentIndex] in screen.decoded
      && l.state.photo == Some(screen.decoded[l.state.images[l.state.currentIndex]])
      && l.state.settings.autoStop == args.autoStop.Some?
  {
    if args.startIndex >= 0 && images != [] && AllShowable(images, screen)
       && (args.shuffle ==> multiset(shuffled) == multiset(images))
       && (args.autoStop.None? || args.autoStop.value > 0) {
      var s := LegacyInitial(images, favorites, args.delay, args.autoStop, args.preloadCount);
      var s1 := if args.shuffle then AfterLegacyShuffle(s, shuffled, screen, missing, now) else s;
      assert multiset(s1.images) == multiset(images) && CacheMatches(s1.preloaded, s1.images, screen.decoded)
        && !s1.settings.autoStop && |s1.images| == |images| by {
        if args.shuffle {
          LegacyShuffleShows(s, shuffled, screen, missing, now);
        }
      }
      var p := Prepared(s, args, shuffled, screen, missing, now);
      assert AllShowable(p.images, screen) by {
        forall k | 0 <= k < |p.images|
          ensures p.images[k] in screen.decoded && Renders(screen.decoded[p.images[k]])
        {
          assert p.images[k] in multiset(images);
        }
      }
      var i := p.currentIndex;
      assert 0 <= i < |p.images|;
      assert !StopDue(p, now);
      ShownLands(p, i, false, screen, missing, now);
      ShownKeepsCache(p, i, false, screen, missing, now);
    }
  }

  /**
   * After a shuffle with every file showable the list is a permutation of
   * the old one and position 0 is shown, with the cache matching the files.
   */
  lemma LegacyShuffleShows(s: Legacy, shuffled: seq<Path>, screen: Screen, missing: set<Path>, now: real)
    requires s.images != [] && multiset(shuffled) == multiset(s.images) && AllShowable(s.images, screen)
    requires !StopDue(s, now)
    ensures var r := AfterLegacyShuffle(s, shuffled, screen, missing, now);
      multiset(r.images) == multiset(s.images) && r.currentIndex == 0
      && CacheMatches(r.preloaded, r.images, screen.decoded)
      && r.images != [] && r.images[0] in screen.decoded && r.photo == Some(screen.decoded[r.images[0]])
      && FavoritedPaths(r.images, r.favorites) == FavoritedPaths(s.images, s.favorites)
  {
    var t := Regrouped(s, shuffled);
    RegroupKeepsFavorites(s, shuffled);
    assert shuffled[0] in multiset(s.images);
    assert shuffled[0] in screen.decoded;
    ShownLands(t, 0, false, screen, missing, now);
    ShownKeepsCache(t, 0, false, screen, missing, now);
  }

  /**
   * The stale start of `main` as written: with `--shuffle` and start
   * index 1, position 1 is current but the picture of position 0 is the
   * one on the canvas.
   */
  lemma LaunchShowsWrongImage(a: Path, b: Path, pa: Picture, pb: Picture, screen: Screen, missing: set<Path>,
                              now: real)
    requires a != b && pa != pb && !pa.animated && !pb.animated
    requires screen.decoded == map[a := pa, b := pb] && screen.width > 1 && screen.height > 1
    ensures var l := LaunchedAsWritten([a, b], [], LegacyArgs(1.0, None, 1, LegacyPreloadCount, true), [a, b],
                                       screen, missing, now);
      l.Running? && l.state.images == [a, b] && l.state.currentIndex == 1 && l.state.photo == Some(pa)
      && screen.decoded[b] == pb
  {
    var args := LegacyArgs(1.0, None, 1, LegacyPreloadCount, true);
    var s := LegacyInitial([a, b], [], 1.0, None, LegacyPreloadCount);
    var t := Regrouped(s, [a, b]);
    ShownLands(t, 0, false, screen, missing, now);
  }
}
