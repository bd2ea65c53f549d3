// The slideshow application's navigation, timer and cache state
// (slideshow/src/slideshow/app.py), together with the GIF frame cycling of
// `animate_gif_next_frame` (slideshow/src/slideshow/display.py), which works
// on the same fields.
//
// Tk's `after` queue is not modelled as a queue: a field that holds the id of
// a pending callback is a `Timer` naming its delay and what it will do, and
// `after_cancel` followed by clearing the field is setting it to `None`. The
// image files as Pillow would decode them and the size of the canvas at the
// time of a call are a `Screen`. The state of the application is the value
// `Slideshow`; the class `ImageSlideshowApp` holds the same fields and each
// of its methods is proved to leave them as the matching `After...`
// function says.

module SlideshowApp {
  import opened Wrappers
  import opened Numbers
  import opened SlideshowFavorites
  import opened SlideshowImages

  const DefaultAutoStopDelay := 3600
  /** The frame duration Pillow reports when a frame has none, in ms. */
  const DefaultFrameDuration := 100
  /** The wait before retrying on a canvas that is not laid out yet, in ms. */
  const CanvasRetryMs := 100
  /** The wait after the last resize before redrawing, in ms. */
  const ResizeSettleMs := 250

  /** A frame of an image file: whether a photo could be made of it, and its `duration`. */
  datatype Frame = Frame(renders: bool, duration: Option<int>)

  /** A decoded image file: Pillow's `is_animated`, and its frames (`n_frames` is their number). */
  datatype Picture = Picture(animated: bool, frames: seq<Frame>)

  /** What a scheduled callback does when it fires. */
  datatype Action =
    | AdvanceAuto               // next_image_auto()
    | Reshow(forceReload: bool) // show_image(current_index, force_reload)
    | NextFrame                 // animate_gif_next_frame(app)

  /** A callback scheduled with `window.after(delayMs, ...)`. */
  datatype Timer = Timer(delayMs: int, action: Action)

  /** The decoded image files (a path missing here fails to open) and the canvas size. */
  datatype Screen = Screen(decoded: map<Path, Picture>, width: int, height: int)

  /** The slideshow's settings, which navigation leaves alone. */
  datatype Settings = Settings(
    delay: real, autoStopDelay: int, loop: bool, autoStop: bool, stopTime: real,
    brightness: real, infoDisplayed: bool, showFullHud: bool, isFullscreen: bool, alwaysOnTop: bool)

  /**
   * The GIF animation state: the pending frame callback, the durations of
   * the frames made into photos (standing for the photos too, which are
   * appended together with them) and the index of the next frame.
   */
  datatype Animation = Animation(afterId: Option<Timer>, durations: seq<int>, index: nat)

  /**
   * The fields of `ImageSlideshowApp` that the slideshow logic reads or
   * writes; `photo` is the picture the photo on the canvas was made from.
   */
  datatype Slideshow = Slideshow(
    images: seq<Path>, currentIndex: int, preloaded: map<int, Picture>, favorites: seq<int>,
    settings: Settings, timerRunning: bool, afterId: Option<Timer>, resizeJob: Option<Timer>,
    gif: Animation, photo: Option<Picture>)

  /** The delay in whole milliseconds, truncated toward zero. */
  function DelayMs(delay: real): int
  {
    Truncate(delay * 1000.0)
  }

  /** The callback that advances the slideshow after the current delay. */
  function AdvanceTimer(delay: real): Timer
  {
    Timer(DelayMs(delay), AdvanceAuto)
  }

  /* ---------------- __init__ ---------------- */

  /** The state `__init__` sets before `setup`, at wall-clock time `now`. */
  function Initial(delay: real, autoStopDelay: Option<int>, now: real): (r: Slideshow)
    ensures r.settings.autoStop <==> autoStopDelay.Some?
    ensures r.settings.autoStopDelay == autoStopDelay.GetOr(DefaultAutoStopDelay)
    ensures r.settings.stopTime == if r.settings.autoStop then now + r.settings.autoStopDelay as real else 0.0
    ensures r.images == [] && r.currentIndex == 0 && r.preloaded == map[] && r.favorites == []
    ensures r.timerRunning && r.settings.loop && r.afterId.None? && r.gif.afterId.None?
  {
    var stopDelay := autoStopDelay.GetOr(DefaultAutoStopDelay);
    var settings := Settings(delay, stopDelay, true, autoStopDelay.Some?,
                             if autoStopDelay.Some? then now + stopDelay as real else 0.0,
                             1.0, false, true, false, false);
    Slideshow([], 0, map[], [], settings, true, None, None, Animation(None, [], 0), None)
  }

  /* ---------------- animate_gif_next_frame ---------------- */

  /** The next frame of an animation, wrapping round to the first after the last. */
  function Succ(i: nat, n: nat): (k: nat)
    requires n > 0
    ensures k < n
    ensures i + 1 < n ==> k == i + 1
    ensures i + 1 == n ==> k == 0
  {
    if i + 1 < n then ModUnique(i + 1, n, 0, i + 1); (i + 1) % n
    else if i + 1 == n then ModUnique(i + 1, n, 1, 0); (i + 1) % n
    else (i + 1) % n
  }

  /** `r` has the list, position, favorites, settings and timer of `s`. */
  predicate Keeps(s: Slideshow, r: Slideshow)
  {
    r.images == s.images && r.currentIndex == s.currentIndex && r.favorites == s.favorites
    && r.settings == s.settings && r.timerRunning == s.timerRunning
  }

  /** `animate_gif_next_frame`: show the current frame and schedule what comes after it. */
  function AfterGifFrame(s: Slideshow): (r: Slideshow)
    ensures Keeps(s, r) && r.preloaded == s.preloaded && r.photo == s.photo
  {
    var g := s.gif;
    if g.durations == [] || g.index >= |g.durations| then s
    else
      var next := Succ(g.index, |g.durations|);
      if s.timerRunning && next == 0 then s.(gif := g.(index := next), afterId := Some(AdvanceTimer(s.settings.delay)))
      else s.(gif := g.(index := next, afterId := Some(Timer(g.durations[g.index], NextFrame))))
  }

  /**
   * With no frames or an index past them nothing happens. Otherwise the
   * index moves on by one modulo the number of frames, and exactly one
   * callback is scheduled: the next image when the timer runs and the index
   * wrapped to 0, the next frame after this frame's duration otherwise.
   */
  lemma GifFrameStep(s: Slideshow)
    ensures var r := AfterGifFrame(s);
      var g := s.gif;
      var n := |g.durations|;
      (n == 0 || g.index >= n ==> r == s)
      && (0 < n && g.index < n ==>
            r.gif.index == (g.index + 1) % n
            && r.gif.durations == g.durations && r.timerRunning == s.timerRunning
            && (s.timerRunning && r.gif.index == 0 ==>
                  r.afterId == Some(AdvanceTimer(s.settings.delay)) && r.gif.afterId == g.afterId)
            && (!(s.timerRunning && r.gif.index == 0) ==>
                  r.gif.afterId == Some(Timer(g.durations[g.index], NextFrame)) && r.afterId == s.afterId))
  {
  }

  /** `k` frames of an animation. */
  function GifFrames(s: Slideshow, k: nat): Slideshow
    decreases k
  {
    if k == 0 then s else GifFrames(AfterGifFrame(s), k - 1)
  }

  /**
   * With the timer running and the animation at its first frame, the next
   * image is scheduled only once every frame has been shown: the first
   * `n - 1` frames each schedule the frame after them, and the last one
   * schedules the slideshow's advance.
   */
  lemma {:induction false} GifShowsEveryFrameFirst(s: Slideshow, k: nat)
    requires s.timerRunning && 0 < |s.gif.durations| && s.gif.index == 0 && s.afterId.None?
    requires k < |s.gif.durations|
    ensures GifFrames(s, k).gif.index == k && GifFrames(s, k).afterId.None?
    ensures GifFrames(s, k).gif.durations == s.gif.durations && GifFrames(s, k).timerRunning
    ensures GifFrames(s, k).settings == s.settings
    ensures k == |s.gif.durations| - 1 ==>
      GifFrames(s, k + 1).afterId == Some(AdvanceTimer(s.settings.delay)) && GifFrames(s, k + 1).gif.index == 0
  {
    if k > 0 {
      GifShowsEveryFrameFirst(s, k - 1);
      GifFramesSnoc(s, k - 1);
      GifFrameStep(GifFrames(s, k - 1));
    }
    if k == |s.gif.durations| - 1 {
      GifFramesSnoc(s, k);
      GifFrameStep(GifFrames(s, k));
    }
  }

  lemma {:induction false} GifFramesSnoc(s: Slideshow, k: nat)
    ensures GifFrames(s, k + 1) == AfterGifFrame(GifFrames(s, k))
    decreases k
  {
    if k > 0 {
      GifFramesSnoc(AfterGifFrame(s), k - 1);
    }
  }

  /* ---------------- show_image ---------------- */

  /** The durations of the frames that could be made into photos, in order. */
  function FrameDurations(frames: seq<Frame>): (r: seq<int>)
    ensures |r| <= |frames|
  {
    if frames == [] then []
    else
      var n := |frames|;
      var last := frames[n - 1];
      FrameDurations(frames[..n - 1]) + (if last.renders then [last.duration.GetOr(DefaultFrameDuration)] else [])
  }

  /** The picture is animated with more than one frame. */
  predicate Animated(picture: Picture)
  {
    picture.animated && |picture.frames| > 1
  }

  /** Putting `picture` on the canvas: a still photo, or the first frame of an animation. */
  function Displayed(s: Slideshow, picture: Picture): (r: Slideshow)
    ensures Keeps(s, r) && r.preloaded == s.preloaded && r.photo == Some(picture)
  {
    var s1 := s.(photo := Some(picture));
    if Animated(picture) then Animating(s1, FrameDurations(picture.frames)) else s1
  }

  /** Starting an animation whose photos have `durations`: the first frame is shown when there is one. */
  function Animating(s: Slideshow, durations: seq<int>): (r: Slideshow)
    ensures Keeps(s, r) && r.preloaded == s.preloaded && r.photo == s.photo
  {
    if durations == [] then s.(gif := s.gif.(durations := []))
    else AfterGifFrame(s.(gif := s.gif.(durations := durations, index := 0)))
  }

  /**
   * The part of `show_image` after the picture is found: retry later on a
   * canvas that is not laid out, otherwise display it, preload around it and
   * schedule the advance unless an animation is running.
   */
  function Presented(s: Slideshow, picture: Picture, forceReload: bool, screen: Screen): (r: Slideshow)
    ensures Keeps(s, r) && (r.photo == s.photo || r.photo == Some(picture))
  {
    if screen.width <= 1 || screen.height <= 1 then
      s.(afterId := Some(Timer(CanvasRetryMs, Reshow(forceReload))))
    else
      var s2 := Displayed(s, picture);
      var s3 := s2.(preloaded := Preloaded(s2.images, s2.currentIndex, s2.preloaded, s2.settings.loop,
                                           DefaultPreloadCount, screen.decoded));
      if s3.timerRunning && s3.gif.afterId.None? then s3.(afterId := Some(AdvanceTimer(s3.settings.delay))) else s3
  }

  /** The index wrapped into the list, which Python computes as Dafny does for a positive modulus. */
  function Wrap(index: int, n: int): (k: int)
    requires n > 0
    ensures 0 <= k < n
    ensures 0 <= index < n ==> k == index
    ensures index == n ==> k == 0
    ensures -n <= index < 0 ==> k == index + n
  {
    if 0 <= index < n then ModUnique(index, n, 0, index); index % n
    else if index == n then ModUnique(index, n, 1, 0); index % n
    else if -n <= index < 0 then ModUnique(index, n, -1, index + n); index % n
    else index % n
  }

  /** Going to `index`: the position wraps round the list and the pending callbacks are cancelled. */
  function Selected(s: Slideshow, index: int): (r: Slideshow)
    requires s.images != []
  {
    s.(currentIndex := Wrap(index, |s.images|), afterId := None, gif := s.gif.(afterId := None))
  }

  /** The picture at `index` can be shown: it is cached and not forced to reload, or it decodes. */
  predicate Available(s: Slideshow, index: int, forceReload: bool, screen: Screen)
    requires s.images != []
  {
    var ci := Wrap(index, |s.images|);
    (ci in s.preloaded && !forceReload) || s.images[ci] in screen.decoded
  }

  /**
   * `show_image(index, force_reload)`. A file that fails to open makes it
   * call `next_image_auto`, which shows the next index; `fuel` bounds that
   * chain of failures, and when it runs out the state is left as it is.
   */
  function AfterShowImage(s: Slideshow, index: int, forceReload: bool, screen: Screen, fuel: nat): (r: Slideshow)
    ensures s.images == [] ==> r == s
    ensures r.images == s.images && r.favorites == s.favorites && r.settings == s.settings
    ensures s.images != [] ==> 0 <= r.currentIndex < |s.images|
    ensures !s.timerRunning ==> !r.timerRunning
    decreases fuel, 0
  {
    if s.images == [] then s
    else
      var ci := Wrap(index, |s.images|);
      var s1 := Selected(s, index);
      if ci in s.preloaded && !forceReload then
        Presented(s1, s.preloaded[ci], forceReload, screen)
      else if s.images[ci] in screen.decoded then
        var picture := screen.decoded[s.images[ci]];
        Presented(s1.(preloaded := s.preloaded[ci := picture]), picture, forceReload, screen)
      else if fuel == 0 then s1
      else AfterNextImageAuto(s1, screen, fuel - 1)
  }

  /** `next_image_auto`: stop at the last image when not looping, otherwise show the next one. */
  function AfterNextImageAuto(s: Slideshow, screen: Screen, fuel: nat): (r: Slideshow)
    ensures r.images == s.images && r.favorites == s.favorites && r.settings == s.settings
    ensures s.images != [] && 0 <= s.currentIndex < |s.images| ==> 0 <= r.currentIndex < |s.images|
    ensures !s.timerRunning ==> !r.timerRunning
    decreases fuel, 1
  {
    if !s.settings.loop && s.currentIndex >= |s.images| - 1 then s.(timerRunning := false)
    else AfterShowImage(s, s.currentIndex + 1, false, screen, fuel)
  }

  /** The picture `show_image` would put on the canvas for `index`. */
  function PictureFor(s: Slideshow, index: int, forceReload: bool, screen: Screen): Picture
    requires s.images != [] && Available(s, index, forceReload, screen)
  {
    var ci := Wrap(index, |s.images|);
    if ci in s.preloaded && !forceReload then s.preloaded[ci] else screen.decoded[s.images[ci]]
  }

  /** An index is in the window `preload_images` keeps around itself. */
  lemma CurrentInWindow(ci: int, n: int)
    requires 0 <= ci < n
    ensures ci in KeepWindow(ci, DefaultPreloadCount, n)
  {
    assert Around(ci, 0, n) == ci by {
      assert ci + 0 + n == ci + 1 * n;
    }
  }

  /**
   * When the picture for `index` is available, `show_image` lands on
   * `index` modulo the number of images, whatever its sign or size. On a
   * laid-out canvas it shows a cached picture without reopening the file (the
   * cache keeps it), or opens the file and caches what it decoded; on a
   * canvas that is not laid out yet it caches the same picture, leaves the
   * canvas alone and retries after 100 ms.
   */
  lemma ShowImageLands(s: Slideshow, index: int, forceReload: bool, screen: Screen, fuel: nat)
    requires s.images != [] && Available(s, index, forceReload, screen)
    ensures var r := AfterShowImage(s, index, forceReload, screen, fuel);
      var ci := Wrap(index, |s.images|);
      var picture := PictureFor(s, index, forceReload, screen);
      r.currentIndex == ci
      && ci in r.preloaded && r.preloaded[ci] == picture
      && (ci in s.preloaded && !forceReload ==> picture == s.preloaded[ci])
      && (!(ci in s.preloaded && !forceReload) ==> picture == screen.decoded[s.images[ci]])
      && (screen.width > 1 && screen.height > 1 ==> r.photo == Some(picture))
      && (screen.width <= 1 || screen.height <= 1 ==>
            r.photo == s.photo && r.afterId == Some(Timer(CanvasRetryMs, Reshow(forceReload))))
  {
    var ci := Wrap(index, |s.images|);
    var picture := PictureFor(s, index, forceReload, screen);
    var s1 := Selected(s, index);
    var s2 := if ci in s.preloaded && !forceReload then s1 else s1.(preloaded := s.preloaded[ci := picture]);
    assert AfterShowImage(s, index, forceReload, screen, fuel) == Presented(s2, picture, forceReload, screen);
    if screen.width > 1 && screen.height > 1 {
      var d := Displayed(s2, picture);
      assert d.preloaded == s2.preloaded && d.images == s.images && d.currentIndex == ci;
      CurrentInWindow(ci, |s.images|);
      PreloadKeepsCached(d.images, ci, d.preloaded, d.settings.loop, DefaultPreloadCount, screen.decoded, ci);
    }
  }

  /**
   * On a laid-out canvas with the picture available, the advance is
   * scheduled exactly when the timer runs and no animation frame is pending,
   * and a frame is pending exactly when the picture is animated, some of its
   * frames could be made into photos, and not just one of them with the
   * timer running.
   */
  lemma ShowImageSchedules(s: Slideshow, index: int, forceReload: bool, screen: Screen, fuel: nat)
    requires s.images != [] && Available(s, index, forceReload, screen)
    requires screen.width > 1 && screen.height > 1
    ensures var r := AfterShowImage(s, index, forceReload, screen, fuel);
      var picture := PictureFor(s, index, forceReload, screen);
      var durations := FrameDurations(picture.frames);
      r.timerRunning == s.timerRunning
      && r.afterId == (if s.timerRunning && r.gif.afterId.None? then Some(AdvanceTimer(s.settings.delay)) else None)
      && (r.gif.afterId.Some? <==>
            Animated(picture) && durations != [] && !(s.timerRunning && |durations| == 1))
  {
    var ci := Wrap(index, |s.images|);
    var picture := PictureFor(s, index, forceReload, screen);
    var s1 := Selected(s, index);
    var s2 := if ci in s.preloaded && !forceReload then s1 else s1.(preloaded := s.preloaded[ci := picture]);
    assert AfterShowImage(s, index, forceReload, screen, fuel) == Presented(s2, picture, forceReload, screen);
    var d := Displayed(s2, picture);
    if Animated(picture) && FrameDurations(picture.frames) != [] {
      GifFrameStep(s2.(photo := Some(picture), gif := s2.gif.(durations := FrameDurations(picture.frames), index := 0)));
    }
  }

  /** A picture that fails to open and is not cached makes `show_image` go on as `next_image_auto`. */
  lemma ShowImageSkipsFailure(s: Slideshow, index: int, forceReload: bool, screen: Screen, fuel: nat)
    requires s.images != [] && !Available(s, index, forceReload, screen) && fuel > 0
    ensures AfterShowImage(s, index, forceReload, screen, fuel)
         == AfterNextImageAuto(s.(currentIndex := Wrap(index, |s.images|), afterId := None, gif := s.gif.(afterId := None)),
                               screen, fuel - 1)
  {
  }

  /**
   * `show_image` keeps the cache consistent with the files: if every cached
   * picture is the decoded file at its index before, the same holds after,
   * and a picture it puts on the canvas is the decoded file of the image it
   * lands on.
   */
  lemma {:induction false} ShowImageKeepsCache(s: Slideshow, index: int, forceReload: bool, screen: Screen, fuel: nat)
    requires CacheMatches(s.preloaded, s.images, screen.decoded)
    ensures var r := AfterShowImage(s, index, forceReload, screen, fuel);
      CacheMatches(r.preloaded, r.images, screen.decoded)
      && (r.photo == s.photo || (0 <= r.currentIndex < |r.images| && r.images[r.currentIndex] in screen.decoded
                                 && r.photo == Some(screen.decoded[r.images[r.currentIndex]])))
    decreases fuel, 0
  {
    if s.images != [] {
      var ci := Wrap(index, |s.images|);
      var s1 := Selected(s, index);
      if ci in s.preloaded && !forceReload {
        PresentedKeepsCache(s1, s.preloaded[ci], forceReload, screen);
      } else if s.images[ci] in screen.decoded {
        var picture := screen.decoded[s.images[ci]];
        PresentedKeepsCache(s1.(preloaded := s.preloaded[ci := picture]), picture, forceReload, screen);
      } else if fuel > 0 {
        NextImageAutoKeepsCache(s1, screen, fuel - 1);
      }
    }
  }

  lemma {:induction false} NextImageAutoKeepsCache(s: Slideshow, screen: Screen, fuel: nat)
    requires CacheMatches(s.preloaded, s.images, screen.decoded)
    ensures var r := AfterNextImageAuto(s, screen, fuel);
      CacheMatches(r.preloaded, r.images, screen.decoded)
      && (r.photo == s.photo || (0 <= r.currentIndex < |r.images| && r.images[r.currentIndex] in screen.decoded
                                 && r.photo == Some(screen.decoded[r.images[r.currentIndex]])))
    decreases fuel, 1
  {
    if !(!s.settings.loop && s.currentIndex >= |s.images| - 1) {
      ShowImageKeepsCache(s, s.currentIndex + 1, false, screen, fuel);
    }
  }

  lemma PresentedKeepsCache(s: Slideshow, picture: Picture, forceReload: bool, screen: Screen)
    requires 0 <= s.currentIndex < |s.images|
    requires CacheMatches(s.preloaded, s.images, screen.decoded)
    requires s.images[s.currentIndex] in screen.decoded && picture == screen.decoded[s.images[s.currentIndex]]
    ensures var r := Presented(s, picture, forceReload, screen);
      CacheMatches(r.preloaded, r.images, screen.decoded) && r.images == s.images
      && r.currentIndex == s.currentIndex && (r.photo == s.photo || r.photo == Some(picture))
  {
    var d := Displayed(s, picture);
    assert d.preloaded == s.preloaded && d.images == s.images && d.currentIndex == s.currentIndex;
    PreloadKeepsMatching(d.images, d.currentIndex, d.preloaded, d.settings.loop, DefaultPreloadCount, screen.decoded);
  }

  /**
   * `next_image_auto` from a valid index: without looping it stays on the
   * last image and stops the timer; otherwise, when the next picture is
   * available, it lands on the next index, wrapping from the last to the
   * first.
   */
  lemma NextImageAutoMoves(s: Slideshow, screen: Screen, fuel: nat)
    requires s.images != [] && 0 <= s.currentIndex < |s.images|
    ensures var r := AfterNextImageAuto(s, screen, fuel);
      (!s.settings.loop && s.currentIndex == |s.images| - 1 ==>
         r.currentIndex == s.currentIndex && !r.timerRunning && r.photo == s.photo && r.afterId == s.afterId)
      && (!(!s.settings.loop && s.currentIndex == |s.images| - 1) && Available(s, s.currentIndex + 1, false, screen) ==>
            r.currentIndex == (if s.currentIndex == |s.images| - 1 then 0 else s.currentIndex + 1))
  {
    var n := |s.images|;
    if !(!s.settings.loop && s.currentIndex == n - 1) {
      assert AfterNextImageAuto(s, screen, fuel) == AfterShowImage(s, s.currentIndex + 1, false, screen, fuel);
      if Available(s, s.currentIndex + 1, false, screen) {
        ShowImageLands(s, s.currentIndex + 1, false, screen, fuel);
      }
    }
  }

  /* ---------------- navigation ---------------- */

  /** `next_image`, `previous_image`, `jump_forward_ten`, `jump_backward_ten`: stop the timer and move by `offset`. */
  function AfterStep(s: Slideshow, offset: int, screen: Screen, fuel: nat): Slideshow
  {
    AfterShowImage(s.(timerRunning := false), s.currentIndex + offset, false, screen, fuel)
  }

  /**
   * Moving by hand stops the timer and cancels the pending advance. With the
   * picture available it lands on the current index plus the offset, wrapped
   * round the list, and schedules no advance.
   */
  lemma StepMoves(s: Slideshow, offset: int, screen: Screen, fuel: nat)
    requires s.images != []
    ensures var r := AfterStep(s, offset, screen, fuel);
      !r.timerRunning
      && (Available(s, s.currentIndex + offset, false, screen) && screen.width > 1 && screen.height > 1 ==>
            r.currentIndex == Wrap(s.currentIndex + offset, |s.images|) && 0 <= r.currentIndex < |s.images|
            && r.afterId.None?)
  {
    var t := s.(timerRunning := false);
    if Available(s, s.currentIndex + offset, false, screen) && screen.width > 1 && screen.height > 1 {
      assert Available(t, s.currentIndex + offset, false, screen);
      ShowImageLands(t, s.currentIndex + offset, false, screen, fuel);
      ShowImageSchedules(t, s.currentIndex + offset, false, screen, fuel);
    }
  }

  /* ---------------- timer and auto-stop ---------------- */

  /** `toggle_timer` */
  function AfterToggleTimer(s: Slideshow): (r: Slideshow)
  {
    var t := s.(timerRunning := !s.timerRunning);
    if t.timerRunning then t.(afterId := Some(AdvanceTimer(t.settings.delay)))
    else if t.afterId.Some? then t.(afterId := None)
    else t
  }

  /**
   * Toggling the timer flips it; resuming schedules the advance after the
   * current delay and pausing cancels whatever was pending. Nothing else
   * changes, so pausing and resuming gives a running slideshow with a fresh
   * advance pending.
   */
  lemma ToggleTimerFlips(s: Slideshow)
    ensures var r := AfterToggleTimer(s);
      r.timerRunning == !s.timerRunning
      && (r.timerRunning ==> r.afterId == Some(AdvanceTimer(s.settings.delay)))
      && (!r.timerRunning ==> r.afterId.None?)
      && r.(timerRunning := s.timerRunning, afterId := s.afterId) == s
    ensures s.timerRunning ==>
      AfterToggleTimer(AfterToggleTimer(s)) == s.(afterId := Some(AdvanceTimer(s.settings.delay)))
  {
  }

  /** `toggle_auto_stop` at wall-clock time `now` */
  function AfterToggleAutoStop(s: Slideshow, now: real): Slideshow
  {
    var c := s.settings;
    var stopTime := if !c.autoStop then now + c.autoStopDelay as real else 0.0;
    s.(settings := c.(autoStop := !c.autoStop, stopTime := stopTime))
  }

  /**
   * Toggling auto-stop flips it: enabling sets the stop time to now plus the
   * auto-stop delay, disabling resets it to 0.0, and nothing else changes.
   */
  lemma ToggleAutoStopFlips(s: Slideshow, now: real)
    ensures var r := AfterToggleAutoStop(s, now);
      r.settings.autoStop == !s.settings.autoStop
      && r.settings.stopTime == (if r.settings.autoStop then now + s.settings.autoStopDelay as real else 0.0)
      && r.settings.(autoStop := s.settings.autoStop, stopTime := s.settings.stopTime) == s.settings
      && r.(settings := s.settings) == s
  {
  }

  /* ---------------- setup, list changes, favorites, resize ---------------- */

  /**
   * `setup`: load the image list; with no images nothing more happens (the
   * window is closed), otherwise load the favorites, go full screen and show
   * the first image.
   */
  function AfterSetup(s: Slideshow, folder: Option<seq<Entry>>, favoritesFile: Option<string>,
                      screen: Screen, fuel: nat): (r: Slideshow)
    ensures r.images == LoadImagesFromFolder(folder)
    ensures r.images == [] ==> r.favorites == s.favorites && r.currentIndex == s.currentIndex
    ensures r.images != [] ==>
      r.favorites == LoadFavorites(favoritesFile, |r.images|) && r.settings.isFullscreen && !r.settings.alwaysOnTop
      && 0 <= r.currentIndex < |r.images|
  {
    var images := LoadImagesFromFolder(folder);
    if images == [] then s.(images := [])
    else AfterShowImage(Loaded(s, images, LoadFavorites(favoritesFile, |images|)), 0, false, screen, fuel)
  }

  /** The part of `setup` between loading the lists and showing the first image. */
  function Loaded(s: Slideshow, images: seq<Path>, favorites: seq<int>): Slideshow
  {
    s.(images := images, favorites := favorites, settings := s.settings.(isFullscreen := true, alwaysOnTop := false))
  }

  /**
   * `shuffle_images` as written: the list is reordered and the first image
   * shown, but the cache, keyed by index, still holds the pictures of the
   * old order.
   */
  function AfterShuffleAsWritten(s: Slideshow, shuffled: seq<Path>, screen: Screen, fuel: nat): Slideshow
    requires s.images != [] ==> 0 <= s.currentIndex < |s.images|
    requires s.images != [] ==>
      multiset(shuffled) == multiset(s.images[..s.currentIndex] + s.images[s.currentIndex + 1..])
  {
    var (images, index) := ShuffleImages(s.images, s.currentIndex, shuffled);
    AfterShowImage(s.(images := images, currentIndex := index), index, false, screen, fuel)
  }

  /**
   * The cache going stale: with two images, the second one shown and both
   * cached, shuffling puts the second image first, yet the canvas shows the
   * first image's picture, still cached under index 0.
   */
  lemma ShuffleShowsStalePicture(s: Slideshow, a: Path, b: Path, pa: Picture, pb: Picture, screen: Screen)
    requires a != b && pa != pb && s.images == [a, b] && s.currentIndex == 1
    requires s.preloaded == map[0 := pa, 1 := pb] && screen.decoded == map[a := pa, b := pb]
    requires screen.width > 1 && screen.height > 1
    ensures CacheMatches(s.preloaded, s.images, screen.decoded)
    ensures var r := AfterShuffleAsWritten(s, [a], screen, 1);
      r.images[0] == b && r.currentIndex == 0 && r.photo == Some(pa) && pa != screen.decoded[b]
  {
    assert s.images[..1] + s.images[2..] == [a];
    var t := s.(images := [b, a], currentIndex := 0);
    assert [s.images[1]] + [a] == [b, a];
    assert ShuffleImages(s.images, 1, [a]) == ([b, a], 0);
    ShowImageLands(t, 0, false, screen, 1);
  }

  /** Showing `index` of a new order of the list, with the cache emptied first. */
  function Reordered(s: Slideshow, images: seq<Path>, index: int, screen: Screen, fuel: nat): Slideshow
  {
    AfterShowImage(s.(images := images, currentIndex := index, preloaded := map[]), index, false, screen, fuel)
  }

  /**
   * After a reordering with the cache emptied, the cache matches the files
   * again and a picture put on the canvas is the decoded file of the image
   * now current.
   */
  lemma ReorderKeepsCache(s: Slideshow, images: seq<Path>, index: int, screen: Screen, fuel: nat)
    ensures var r := Reordered(s, images, index, screen, fuel);
      r.images == images && CacheMatches(r.preloaded, r.images, screen.decoded)
      && (r.photo == s.photo || (0 <= r.currentIndex < |r.images| && r.images[r.currentIndex] in screen.decoded
                                 && r.photo == Some(screen.decoded[r.images[r.currentIndex]])))
  {
    ShowImageKeepsCache(s.(images := images, currentIndex := index, preloaded := map[]), index, false, screen, fuel);
  }

  /**
   * `shuffle_images` with the cache cleared first, as the earlier version
   * of the application does: the current image goes first and is shown.
   */
  function AfterShuffle(s: Slideshow, shuffled: seq<Path>, screen: Screen, fuel: nat): Slideshow
    requires s.images != [] ==> 0 <= s.currentIndex < |s.images|
    requires s.images != [] ==>
      multiset(shuffled) == multiset(s.images[..s.currentIndex] + s.images[s.currentIndex + 1..])
  {
    var (images, index) := ShuffleImages(s.images, s.currentIndex, shuffled);
    Reordered(s, images, index, screen, fuel)
  }

  /**
   * After the corrected shuffle the list is a permutation with the image
   * that was current first, the cache matches the files, and a picture put
   * on the canvas is the decoded file of the image now current.
   */
  lemma ShuffleShowsCurrent(s: Slideshow, shuffled: seq<Path>, screen: Screen, fuel: nat)
    requires s.images != [] && 0 <= s.currentIndex < |s.images|
    requires multiset(shuffled) == multiset(s.images[..s.currentIndex] + s.images[s.currentIndex + 1..])
    ensures var r := AfterShuffle(s, shuffled, screen, fuel);
      multiset(r.images) == multiset(s.images) && r.images[0] == s.images[s.currentIndex]
      && CacheMatches(r.preloaded, r.images, screen.decoded)
      && (r.photo == s.photo || (0 <= r.currentIndex < |r.images| && r.images[r.currentIndex] in screen.decoded
                                 && r.photo == Some(screen.decoded[r.images[r.currentIndex]])))
  {
    var (images, index) := ShuffleImages(s.images, s.currentIndex, shuffled);
    ReorderKeepsCache(s, images, index, screen, fuel);
  }

  /**
   * `sort_images`: sort the list by modification time, oldest first, and
   * show the first image, with the cache cleared first for the same reason
   * as `AfterShuffle`.
   */
  function AfterSort(s: Slideshow, mtimes: map<Path, real>, screen: Screen, fuel: nat): Slideshow
  {
    Reordered(s, SortImagesByTime(s.images, mtimes, true), 0, screen, fuel)
  }

  /**
   * After the corrected sort the list is the input ordered by time, oldest
   * first (unchanged when a file has gone), the cache matches the files,
   * and a picture put on the canvas is the decoded file of the image now
   * current.
   */
  lemma SortShowsFirst(s: Slideshow, mtimes: map<Path, real>, screen: Screen, fuel: nat)
    ensures var r := AfterSort(s, mtimes, screen, fuel);
      multiset(r.images) == multiset(s.images)
      && (!AllStamped(s.images, mtimes) ==> r.images == s.images)
      && (AllStamped(s.images, mtimes) ==>
            forall i, j :: 0 <= i < j < |r.images| ==> MTime(mtimes, r.images[i]) <= MTime(mtimes, r.images[j]))
      && CacheMatches(r.preloaded, r.images, screen.decoded)
      && (r.photo == s.photo || (0 <= r.currentIndex < |r.images| && r.images[r.currentIndex] in screen.decoded
                                 && r.photo == Some(screen.decoded[r.images[r.currentIndex]])))
  {
    var sorted := SortImagesByTime(s.images, mtimes, true);
    SortImagesByTimeSpec(s.images, mtimes, true);
    ReorderKeepsCache(s, sorted, 0, screen, fuel);
  }

  /** `sort_images` as written: the cache keeps the pictures of the old order. */
  function AfterSortAsWritten(s: Slideshow, mtimes: map<Path, real>, screen: Screen, fuel: nat): Slideshow
  {
    AfterShowImage(s.(images := SortImagesByTime(s.images, mtimes, true), currentIndex := 0), 0, false, screen, fuel)
  }

  /**
   * The same stale picture after sorting: two images cached in the wrong
   * time order are swapped by the sort, and the first one's picture is
   * shown for the second.
   */
  lemma SortShowsStalePicture(s: Slideshow, a: Path, b: Path, pa: Picture, pb: Picture, screen: Screen)
    requires a != b && pa != pb && s.images == [a, b]
    requires s.preloaded == map[0 := pa, 1 := pb] && screen.decoded == map[a := pa, b := pb]
    requires screen.width > 1 && screen.height > 1
    ensures CacheMatches(s.preloaded, s.images, screen.decoded)
    ensures var r := AfterSortAsWritten(s, map[a := 2.0, b := 1.0], screen, 1);
      r.images[0] == b && r.currentIndex == 0 && r.photo == Some(pa) && pa != screen.decoded[b]
  {
    var mtimes := map[a := 2.0, b := 1.0];
    SortImagesByTimeSpec(s.images, mtimes, true);
    var sorted := SortImagesByTime(s.images, mtimes, true);
    assert AllStamped(s.images, mtimes);
    assert sorted == [b, a] by {
      assert multiset(sorted) == multiset{a, b};
      assert |sorted| == 2;
      var first, second := sorted[0], sorted[1];
      assert sorted == [first, second];
      assert multiset{first, second} == multiset{a, b};
      PairOf(first, second, a, b);
      assert MTime(mtimes, first) <= MTime(mtimes, second);
    }
    ShowImageLands(s.(images := sorted, currentIndex := 0), 0, false, screen, 1);
  }

  /** Two values with the multiset of two distinct ones are those two, in one order or the other. */
  lemma PairOf<T>(x: T, y: T, a: T, b: T)
    requires a != b && multiset{x, y} == multiset{a, b}
    ensures (x == a && y == b) || (x == b && y == a)
  {
    assert x in multiset{a, b} && y in multiset{a, b};
    assert multiset{a, b}[a] == 1;
  }

  /** `toggle_favorite` */
  function AfterToggleFavorite(s: Slideshow): (r: Slideshow)
    ensures SortedInts(r.favorites)
    ensures multiset(s.favorites)[s.currentIndex] <= 1 ==>
      (s.currentIndex in r.favorites <==> s.currentIndex !in s.favorites)
  {
    SortIntsSpec(Toggled(s.currentIndex, s.favorites));
    if multiset(s.favorites)[s.currentIndex] <= 1 then
      ToggleFlips(s.currentIndex, s.favorites);
      s.(favorites := ToggleResult(s.currentIndex, s.favorites))
    else
      s.(favorites := ToggleResult(s.currentIndex, s.favorites))
  }

  /**
   * `on_resize` for an event of size `width` by `height`: for the window
   * itself, a pending redraw is cancelled and, for a size above 50 by 50, a
   * redraw of the current image is scheduled after 250 ms. A cancelled job
   * keeps its id in the field.
   */
  function AfterResize(s: Slideshow, forWindow: bool, width: int, height: int): (r: Slideshow)
    ensures r.(resizeJob := s.resizeJob) == s
    ensures r.resizeJob != s.resizeJob ==> forWindow && width > 50 && height > 50
    ensures forWindow && width > 50 && height > 50 ==> r.resizeJob == Some(Timer(ResizeSettleMs, Reshow(false)))
  {
    if forWindow && width > 50 && height > 50 then s.(resizeJob := Some(Timer(ResizeSettleMs, Reshow(false))))
    else s
  }

  /* ---------------- the application object ---------------- */

  class ImageSlideshowApp {
    var images: seq<Path>
    var currentIndex: int
    var preloaded: map<int, Picture>
    var favorites: seq<int>
    var delay: real
    var autoStopDelay: int
    var timerRunning: bool
    var loop: bool
    var afterId: Option<Timer>
    var autoStop: bool
    var stopTime: real
    var brightness: real
    var infoDisplayed: bool
    var showFullHud: bool
    var isFullscreen: bool
    var alwaysOnTop: bool
    var resizeJob: Option<Timer>
    var gifAfterId: Option<Timer>
    var gifDurations: seq<int>
    var gifIndex: nat
    var photo: Option<Picture>

    /** The fields as a value. */
    function State(): Slideshow
      reads this
    {
      Slideshow(images, currentIndex, preloaded, favorites,
                Settings(delay, autoStopDelay, loop, autoStop, stopTime,
                         brightness, infoDisplayed, showFullHud, isFullscreen, alwaysOnTop),
                timerRunning, afterId, resizeJob, Animation(gifAfterId, gifDurations, gifIndex), photo)
    }

    /** `__init__` up to the call of `setup`, at wall-clock time `now`. */
    constructor (delay: real, autoStopDelay: Option<int>, now: real)
      ensures State() == Initial(delay, autoStopDelay, now)
    {
      this.delay := delay;
      this.autoStopDelay := if autoStopDelay.Some? then autoStopDelay.value else DefaultAutoStopDelay;
      images := [];
      currentIndex := 0;
      preloaded := map[];
      favorites := [];
      timerRunning := true;
      loop := true;
      afterId := None;
      autoStop := autoStopDelay.Some?;
      stopTime := 0.0;
      brightness := 1.0;
      infoDisplayed := false;
      showFullHud := true;
      isFullscreen := false;
      alwaysOnTop := false;
      resizeJob := None;
      gifAfterId := None;
      gifDurations := [];
      gifIndex := 0;
      photo := None;
      new;
      if autoStop {
        stopTime := now + this.autoStopDelay as real;
      }
    }

    /** `setup` */
    method Setup(folder: Option<seq<Entry>>, favoritesFile: Option<string>, screen: Screen, fuel: nat)
      modifies this
      ensures State() == AfterSetup(old(State()), folder, favoritesFile, screen, fuel)
    {
      var found := LoadImagesFromFolder(folder);
      if found == [] {
        images := [];
        return;
      }
      Load(found, LoadFavorites(favoritesFile, |found|));
      ShowImage(0, false, screen, fuel);
    }

    /** The lists found and the window state set by `setup`. */
    method Load(found: seq<Path>, favorites: seq<int>)
      modifies this
      ensures State() == Loaded(old(State()), found, favorites)
    {
      images, this.favorites, isFullscreen, alwaysOnTop := found, favorites, true, false;
    }

    /** `animate_gif_next_frame` */
    method AnimateGifNextFrame()
      modifies this
      ensures State() == AfterGifFrame(old(State()))
    {
      if gifDurations == [] || gifIndex >= |gifDurations| {
        return;
      }
      var duration := gifDurations[gifIndex];
      gifIndex := Succ(gifIndex, |gifDurations|);
      if timerRunning && gifIndex == 0 {
        afterId := Some(AdvanceTimer(delay));
      } else {
        gifAfterId := Some(Timer(duration, NextFrame));
      }
    }

    /** `show_image(index, force_reload)`, with `fuel` bounding the chain of failed files. */
    method ShowImage(index: int, forceReload: bool, screen: Screen, fuel: nat)
      modifies this
      ensures State() == AfterShowImage(old(State()), index, forceReload, screen, fuel)
      decreases fuel, 0
    {
      if images == [] {
        return;
      }
      Select(index);
      var picture: Picture;
      if currentIndex in preloaded && !forceReload {
        picture := preloaded[currentIndex];
      } else if images[currentIndex] in screen.decoded {
        picture := screen.decoded[images[currentIndex]];
        preloaded := preloaded[currentIndex := picture];
      } else {
        if fuel > 0 {
          NextImageAuto(screen, fuel - 1);
        }
        return;
      }
      Present(picture, forceReload, screen);
    }

    /** The start of `show_image`: go to `index` and cancel the pending callbacks. */
    method Select(index: int)
      requires images != []
      modifies this
      ensures State() == Selected(old(State()), index)
    {
      currentIndex, afterId, gifAfterId := Wrap(index, |images|), None, None;
    }

    /** The rest of `show_image` once the picture is in hand. */
    method Present(picture: Picture, forceReload: bool, screen: Screen)
      modifies this
      ensures State() == Presented(old(State()), picture, forceReload, screen)
    {
      if screen.width <= 1 || screen.height <= 1 {
        afterId := Some(Timer(CanvasRetryMs, Reshow(forceReload)));
        return;
      }
      Display(picture);
      preloaded := PreloadImages(images, currentIndex, preloaded, loop, DefaultPreloadCount, screen.decoded);
      if timerRunning && gifAfterId.None? {
        afterId := Some(AdvanceTimer(delay));
      }
    }

    /** Putting the picture on the canvas and starting its animation. */
    method Display(picture: Picture)
      modifies this
      ensures State() == Displayed(old(State()), picture)
    {
      if !Animated(picture) {
        photo := Some(picture);
        return;
      }
      photo := Some(picture);
      var durations := CollectDurations(picture.frames);
      Animate(durations);
    }

    /** The photos of an animation made: start it at its first frame. */
    method Animate(durations: seq<int>)
      modifies this
      ensures State() == Animating(old(State()), durations)
    {
      if durations == [] {
        gifDurations := durations;
      } else {
        gifDurations, gifIndex := durations, 0;
        AnimateGifNextFrame();
      }
    }

    /** `next_image_auto` */
    method NextImageAuto(screen: Screen, fuel: nat)
      modifies this
      ensures State() == AfterNextImageAuto(old(State()), screen, fuel)
      decreases fuel, 1
    {
      if !loop && currentIndex >= |images| - 1 {
        timerRunning := false;
        return;
      }
      ShowImage(currentIndex + 1, false, screen, fuel);
    }

    /** `next_image` */
    method NextImage(screen: Screen, fuel: nat)
      modifies this
      ensures State() == AfterStep(old(State()), 1, screen, fuel)
    {
      timerRunning := false;
      ShowImage(currentIndex + 1, false, screen, fuel);
    }

    /** `previous_image` */
    method PreviousImage(screen: Screen, fuel: nat)
      modifies this
      ensures State() == AfterStep(old(State()), -1, screen, fuel)
    {
      timerRunning := false;
      ShowImage(currentIndex - 1, false, screen, fuel);
    }

    /** `jump_forward_ten` */
    method JumpForwardTen(screen: Screen, fuel: nat)
      modifies this
      ensures State() == AfterStep(old(State()), 10, screen, fuel)
    {
      timerRunning := false;
      ShowImage(currentIndex + 10, false, screen, fuel);
    }

    /** `jump_backward_ten` */
    method JumpBackwardTen(screen: Screen, fuel: nat)
      modifies this
      ensures State() == AfterStep(old(State()), -10, screen, fuel)
    {
      timerRunning := false;
      ShowImage(currentIndex - 10, false, screen, fuel);
    }

    /** `toggle_timer` */
    method ToggleTimer()
      modifies this
      ensures State() == AfterToggleTimer(old(State()))
    {
      timerRunning := !timerRunning;
      if timerRunning {
        afterId := Some(AdvanceTimer(delay));
      } else if afterId.Some? {
        afterId := None;
      }
    }

    /** `toggle_auto_stop` at wall-clock time `now` */
    method ToggleAutoStop(now: real)
      modifies this
      ensures State() == AfterToggleAutoStop(old(State()), now)
    {
      autoStop := !autoStop;
      if autoStop {
        stopTime := now + autoStopDelay as real;
      } else {
        stopTime := 0.0;
      }
    }

    /** `shuffle_images`, with the random order as `shuffled` and the cache cleared. */
    method Shuffle(shuffled: seq<Path>, screen: Screen, fuel: nat)
      requires images != [] ==> 0 <= currentIndex < |images|
      requires images != [] ==> multiset(shuffled) == multiset(images[..currentIndex] + images[currentIndex + 1..])
      modifies this
      ensures State() == AfterShuffle(old(State()), shuffled, screen, fuel)
    {
      var r := ShuffleImages(images, currentIndex, shuffled);
      Reorder(r.0, r.1, screen, fuel);
    }

    /** `sort_images`, with the files' modification times as `mtimes` and the cache cleared. */
    method Sort(mtimes: map<Path, real>, screen: Screen, fuel: nat)
      modifies this
      ensures State() == AfterSort(old(State()), mtimes, screen, fuel)
    {
      Reorder(SortImagesByTime(images, mtimes, true), 0, screen, fuel);
    }

    /** Replace the list by a new order of it, empty the cache and show `index`. */
    method Reorder(order: seq<Path>, index: int, screen: Screen, fuel: nat)
      modifies this
      ensures State() == Reordered(old(State()), order, index, screen, fuel)
    {
      ghost var s0 := State();
      images, currentIndex, preloaded := order, index, map[];
      assert State() == s0.(images := order, currentIndex := index, preloaded := map[]);
      ShowImage(index, false, screen, fuel);
    }

    /** `toggle_favorite` */
    method ToggleFavorite()
      modifies this
      ensures State() == AfterToggleFavorite(old(State()))
    {
      var changed, sorted := SlideshowFavorites.ToggleFavorite(currentIndex, favorites);
      favorites := sorted;
    }

    /** `on_resize` */
    method OnResize(forWindow: bool, width: int, height: int)
      modifies this
      ensures State() == AfterResize(old(State()), forWindow, width, height)
    {
      if forWindow {
        if width > 50 && height > 50 {
          resizeJob := Some(Timer(ResizeSettleMs, Reshow(false)));
        }
      }
    }
  }

  /** The durations appended frame by frame in `show_image`. */
  method CollectDurations(frames: seq<Frame>) returns (durations: seq<int>)
    ensures durations == FrameDurations(frames)
  {
    durations := [];
    var i := 0;
    while i < |frames|
      invariant 0 <= i <= |frames|
      invariant durations == FrameDurations(frames[..i])
    {
      assert frames[..i + 1][..i] == frames[..i];
      if frames[i].renders {
        durations := durations + [frames[i].duration.GetOr(DefaultFrameDuration)];
      }
      i := i + 1;
    }
    assert frames[..i] == frames;
  }
}
