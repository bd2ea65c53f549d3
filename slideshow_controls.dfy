// The keyboard and mouse handlers of the slideshow
// (slideshow/src/slideshow/controls.py). Each handler changes fields of the
// application object; the dialogs of `jump_to_image` are the text of the
// box shown and what was typed into the prompt is a parameter. Delays and
// brightness are `real`: the binary rounding of Python floats is not
// modelled. `toggle_timer` and `toggle_auto_stop` only delegate to the
// methods of the same name in SlideshowApp.

module SlideshowControls {
  import opened Wrappers
  import opened Text
  import opened SlideshowApp

  const MinDelay := 0.1
  const SpeedStep := 0.5
  const MaxBrightness := 3.0
  const MinBrightness := 0.1
  const BrightnessStep := 0.1
  /** The height of the strip at the bottom of the canvas where a click does not toggle the timer. */
  const HudStrip := 100

  /* ---------------- speed ---------------- */

  /** `increase_speed`: half a second less, but never below a tenth of a second. */
  function AfterIncreaseSpeed(s: Slideshow): Slideshow
  {
    var d := s.settings.delay - SpeedStep;
    s.(settings := s.settings.(delay := if MinDelay >= d then MinDelay else d))
  }

  /** `decrease_speed`: half a second more. */
  function AfterDecreaseSpeed(s: Slideshow): Slideshow
  {
    s.(settings := s.settings.(delay := s.settings.delay + SpeedStep))
  }

  /**
   * Speeding up shortens the delay by half a second but never below 0.1 s,
   * and touches nothing else; slowing down lengthens it by half a second.
   */
  lemma SpeedSteps(s: Slideshow)
    ensures var r := AfterIncreaseSpeed(s);
      r.settings.delay >= MinDelay
      && (s.settings.delay - SpeedStep >= MinDelay ==> r.settings.delay == s.settings.delay - SpeedStep)
      && (s.settings.delay - SpeedStep < MinDelay ==> r.settings.delay == MinDelay)
      && r.(settings := r.settings.(delay := s.settings.delay)) == s
    ensures var r := AfterDecreaseSpeed(s);
      r.settings.delay == s.settings.delay + SpeedStep && r.(settings := r.settings.(delay := s.settings.delay)) == s
  {
  }

  /** Slowing down and then speeding up restores any delay of at least 0.1 s. */
  lemma SpeedRoundTrip(s: Slideshow)
    requires s.settings.delay >= MinDelay
    ensures AfterIncreaseSpeed(AfterDecreaseSpeed(s)) == s
  {
    var r := AfterIncreaseSpeed(AfterDecreaseSpeed(s));
    assert r.settings == s.settings;
  }

  /* ---------------- brightness ---------------- */

  /** `increase_brightness`: a tenth more, capped at 3.0, then the current image is shown again, reloaded. */
  function AfterIncreaseBrightness(s: Slideshow, screen: Screen, fuel: nat): Slideshow
  {
    var b := s.settings.brightness + BrightnessStep;
    var t := s.(settings := s.settings.(brightness := if MaxBrightness <= b then MaxBrightness else b));
    AfterShowImage(t, t.currentIndex, true, screen, fuel)
  }

  /** `decrease_brightness`: a tenth less, never below 0.1, then the current image is shown again, reloaded. */
  function AfterDecreaseBrightness(s: Slideshow, screen: Screen, fuel: nat): Slideshow
  {
    var b := s.settings.brightness - BrightnessStep;
    var t := s.(settings := s.settings.(brightness := if MinBrightness >= b then MinBrightness else b));
    AfterShowImage(t, t.currentIndex, true, screen, fuel)
  }

  /**
   * Each brightness key moves the brightness by 0.1 towards its bound and
   * stops there, so a brightness in [0.1, 3.0] stays in it; the list, the
   * favorites and the other settings are untouched.
   */
  lemma BrightnessSteps(s: Slideshow, screen: Screen, fuel: nat)
    ensures var r := AfterIncreaseBrightness(s, screen, fuel);
      var b := s.settings.brightness;
      r.settings.brightness == (if b + BrightnessStep >= MaxBrightness then MaxBrightness else b + BrightnessStep)
      && r.settings.(brightness := b) == s.settings && r.images == s.images && r.favorites == s.favorites
    ensures var r := AfterDecreaseBrightness(s, screen, fuel);
      var b := s.settings.brightness;
      r.settings.brightness == (if b - BrightnessStep <= MinBrightness then MinBrightness else b - BrightnessStep)
      && r.settings.(brightness := b) == s.settings && r.images == s.images && r.favorites == s.favorites
    ensures MinBrightness <= s.settings.brightness <= MaxBrightness ==>
      MinBrightness <= AfterIncreaseBrightness(s, screen, fuel).settings.brightness <= MaxBrightness
      && MinBrightness <= AfterDecreaseBrightness(s, screen, fuel).settings.brightness <= MaxBrightness
  {
  }

  /**
   * The brightness keys re-show the image they started on, bypassing the
   * cache: with its file decodable the canvas gets the freshly decoded
   * picture, which replaces the cached one.
   */
  lemma BrightnessReloads(s: Slideshow, screen: Screen, fuel: nat)
    requires s.images != [] && 0 <= s.currentIndex < |s.images| && s.images[s.currentIndex] in screen.decoded
    requires screen.width > 1 && screen.height > 1
    ensures var r := AfterIncreaseBrightness(s, screen, fuel);
      var picture := screen.decoded[s.images[s.currentIndex]];
      r.currentIndex == s.currentIndex && s.currentIndex in r.preloaded && r.preloaded[s.currentIndex] == picture && r.photo == Some(picture)
  {
    var b := s.settings.brightness + BrightnessStep;
    var t := s.(settings := s.settings.(brightness := if MaxBrightness <= b then MaxBrightness else b));
    assert Available(t, t.currentIndex, true, screen);
    ShowImageLands(t, t.currentIndex, true, screen, fuel);
  }

  /* ---------------- flags ---------------- */

  /** The flags with a key of their own. */
  datatype Flag = Loop | Fullscreen | AlwaysOnTop | FullHud

  function FlagOf(c: Settings, f: Flag): bool
  {
    match f
    case Loop => c.loop
    case Fullscreen => c.isFullscreen
    case AlwaysOnTop => c.alwaysOnTop
    case FullHud => c.showFullHud
  }

  /** `toggle_loop`, `toggle_fullscreen`, `toggle_always_on_top`, `toggle_show_full_hud` */
  function Flipped(s: Slideshow, f: Flag): Slideshow
  {
    var c := s.settings;
    match f
    case Loop => s.(settings := c.(loop := !c.loop))
    case Fullscreen => s.(settings := c.(isFullscreen := !c.isFullscreen))
    case AlwaysOnTop => s.(settings := c.(alwaysOnTop := !c.alwaysOnTop))
    case FullHud => s.(settings := c.(showFullHud := !c.showFullHud))
  }

  /**
   * A toggle flips its own flag and no other, leaves the delay and the
   * brightness and everything outside the settings alone, and a second press
   * undoes the first.
   */
  lemma FlipFlipsOne(s: Slideshow, f: Flag)
    ensures var r := Flipped(s, f);
      FlagOf(r.settings, f) == !FlagOf(s.settings, f)
      && (forall g :: g != f ==> FlagOf(r.settings, g) == FlagOf(s.settings, g))
      && r.settings.delay == s.settings.delay && r.settings.brightness == s.settings.brightness
      && r.settings.autoStop == s.settings.autoStop && r.settings.infoDisplayed == s.settings.infoDisplayed
      && r.(settings := s.settings) == s
    ensures Flipped(Flipped(s, f), f) == s
  {
  }

  /* ---------------- mouse ---------------- */

  /** A mouse-wheel event: Tk's `delta` (Windows, macOS) and button `num` (4 up, 5 down on X11). */
  datatype ScrollEvent = ScrollEvent(delta: int, num: int)

  /** `on_scroll` */
  function AfterScroll(s: Slideshow, e: ScrollEvent, screen: Screen, fuel: nat): Slideshow
  {
    if e.delta > 0 || e.num == 4 then AfterStep(s, -1, screen, fuel)
    else if e.delta < 0 || e.num == 5 then AfterStep(s, 1, screen, fuel)
    else s
  }

  /**
   * Scrolling up goes to the previous image and scrolling down to the next,
   * up winning when an event says both; an event that says neither changes
   * nothing. Either move stops the timer and, with the picture available
   * on a laid-out canvas, lands one image back or forward round the list.
   */
  lemma ScrollDirection(s: Slideshow, e: ScrollEvent, screen: Screen, fuel: nat)
    requires s.images != []
    ensures var r := AfterScroll(s, e, screen, fuel);
      (e.delta > 0 || e.num == 4 ==> r == AfterStep(s, -1, screen, fuel) && !r.timerRunning)
      && (!(e.delta > 0 || e.num == 4) && (e.delta < 0 || e.num == 5) ==>
            r == AfterStep(s, 1, screen, fuel) && !r.timerRunning)
      && (!(e.delta > 0 || e.num == 4) && !(e.delta < 0 || e.num == 5) ==> r == s)
  {
    StepMoves(s, -1, screen, fuel);
    StepMoves(s, 1, screen, fuel);
  }

  /** `on_click` for a click at height `y` on a canvas `canvasHeight` high. */
  function AfterClick(s: Slideshow, y: int, canvasHeight: int): Slideshow
  {
    if y < canvasHeight - HudStrip then AfterToggleTimer(s) else s
  }

  /** A click flips the timer exactly when it lands above the bottom 100 pixels. */
  lemma ClickToggles(s: Slideshow, y: int, canvasHeight: int)
    ensures var r := AfterClick(s, y, canvasHeight);
      (r.timerRunning != s.timerRunning <==> y < canvasHeight - HudStrip)
      && (y >= canvasHeight - HudStrip ==> r == s)
  {
    ToggleTimerFlips(s);
  }

  /* ---------------- jump_to_image ---------------- */

  /** The message box `jump_to_image` shows, if any. */
  datatype Dialog =
    | Quiet
    | Info(title: string, text: string)
    | Warning(title: string, text: string)
    | Failure(title: string, text: string)

  /** Digits with single underscores between them, as `int()` accepts after the sign. */
  predicate Numeral(t: string)
  {
    |t| > 0 && IsDigit(t[0]) && IsDigit(t[|t| - 1])
    && (forall i :: 0 <= i < |t| ==> IsDigit(t[i]) || t[i] == '_')
    && (forall i :: 0 <= i < |t| - 1 ==> !(t[i] == '_' && t[i + 1] == '_'))
  }

  /** The digits of `t` with the underscores taken out. */
  function Unseparated(t: string): (r: string)
    ensures forall i :: 0 <= i < |r| ==> r[i] != '_'
    ensures (forall i :: 0 <= i < |t| ==> t[i] != '_') ==> r == t
  {
    if t == [] then []
    else (if t[0] == '_' then [] else [t[0]]) + Unseparated(t[1..])
  }

  /**
   * `int(text)` on the ASCII characters: surrounding whitespace is dropped,
   * then an optional sign and a numeral; anything else is a `ValueError`.
   */
  function ParseInt(text: string): (r: Option<int>)
    ensures r.Some? ==> Strip(text) != []
  {
    var t := Strip(text);
    if t == [] then None
    else
      var body := if t[0] == '-' || t[0] == '+' then t[1..] else t;
      if !Numeral(body) then None
      else
        var n: int := DigitsValue(Unseparated(body));
        Some(if t[0] == '-' then -n else n)
  }

  /** The decimal text of an integer, with a minus sign when negative. */
  function IntToString(n: int): string
  {
    if n < 0 then "-" + NatToString(-n) else NatToString(n)
  }

  /** The decimal text of a number is a numeral without separators. */
  lemma DigitsAreNumeral(m: nat)
    ensures Numeral(NatToString(m)) && Unseparated(NatToString(m)) == NatToString(m)
  {
  }

  /** Reading back the text of a number gives the number. */
  lemma ParseIntRoundTrip(n: int)
    ensures ParseInt(IntToString(n)) == Some(n)
  {
    if n < 0 {
      ParseNegative(-n);
    } else {
      ParseNonNegative(n);
    }
  }

  lemma ParseNonNegative(m: nat)
    ensures ParseInt(NatToString(m)) == Some(m)
  {
    var t := NatToString(m);
    DigitsValueOfNatToString(m);
    DigitsAreNumeral(m);
    StripDigits(t);
    assert IsDigit(t[0]);
  }

  lemma ParseNegative(m: nat)
    ensures ParseInt("-" + NatToString(m)) == Some(-(m as int))
  {
    var digits := NatToString(m);
    var t := "-" + digits;
    DigitsValueOfNatToString(m);
    DigitsAreNumeral(m);
    assert t[|t| - 1] == digits[|digits| - 1] && IsDigit(digits[|digits| - 1]);
    StripDigits(t);
    assert t[0] == '-' && t[1..] == digits;
  }

  /** A text starting and ending with a non-space character is left alone by `strip()`. */
  lemma StripDigits(t: string)
    requires t != [] && !IsSpace(t[0]) && !IsSpace(t[|t| - 1])
    ensures Strip(t) == t
  {
    TrimLeftSpec(t);
    TrimRightSpec(t);
  }

  /** A text with a letter or other symbol in it is not a number. */
  lemma ParseIntRejects(text: string, i: int)
    requires 0 <= i < |text|
    requires !IsDigit(text[i]) && !IsSpace(text[i]) && text[i] != '_' && text[i] != '-' && text[i] != '+'
    ensures ParseInt(text) == None
  {
    var t := Strip(text);
    var j := StripKeeps(text, i);
    var body := if t[0] == '-' || t[0] == '+' then t[1..] else t;
    if t[0] == '-' || t[0] == '+' {
      assert j > 0 && body[j - 1] == t[j];
    } else {
      assert body[j] == t[j];
    }
  }

  /** `strip()` keeps every character that is not whitespace, at position `j` of its result. */
  lemma StripKeeps(text: string, i: int) returns (j: int)
    requires 0 <= i < |text| && !IsSpace(text[i])
    ensures 0 <= j < |Strip(text)| && Strip(text)[j] == text[i]
  {
    TrimLeftSpec(text);
    var left := TrimLeft(text);
    TrimRightSpec(left);
    j := i - (|text| - |left|);
    assert left[j] == text[i];
  }

  /** What `jump_to_image` decides: show an index, or stay and show a dialog. */
  datatype Jump = Go(index: int) | Stay(dialog: Dialog)

  /**
   * The decision of `jump_to_image` among `count` images, with `typed` the
   * answer to the prompt (`None` when it is cancelled).
   */
  function JumpChoice(count: nat, typed: Option<string>): Jump
  {
    if count == 0 then Stay(Info("Jump to Image", "No images loaded."))
    else if typed.None? || typed.value == "" then Stay(Quiet)
    else
      match ParseInt(typed.value)
      case None => Stay(Failure("Invalid Input", "Please enter a valid number."))
      case Some(n) =>
        if 0 <= n - 1 < count then Go(n - 1)
        else Stay(Warning("Invalid Input", "Enter a number between 1 and " + NatToString(count) + "."))
  }

  /** `jump_to_image`: the timer is stopped and its advance cancelled before the jump. */
  function AfterJump(s: Slideshow, typed: Option<string>, screen: Screen, fuel: nat): (Slideshow, Dialog)
  {
    match JumpChoice(|s.images|, typed)
    case Go(index) => (AfterShowImage(s.(timerRunning := false, afterId := None), index, false, screen, fuel), Quiet)
    case Stay(dialog) => (s, dialog)
  }

  /**
   * Typing the number of an image, from 1 to the number of images, stops
   * the timer and, with its picture available, shows that image, one
   * position lower; a number outside that range only warns.
   */
  lemma JumpLands(s: Slideshow, n: int, screen: Screen, fuel: nat)
    requires s.images != []
    ensures var (r, dialog) := AfterJump(s, Some(IntToString(n)), screen, fuel);
      (1 <= n <= |s.images| ==>
         dialog == Quiet && !r.timerRunning && (Available(s, n - 1, false, screen) ==> r.currentIndex == n - 1))
      && (!(1 <= n <= |s.images|) ==> r == s && dialog.Warning?)
  {
    ParseIntRoundTrip(n);
    if 1 <= n <= |s.images| {
      var t := s.(timerRunning := false, afterId := None);
      if Available(s, n - 1, false, screen) {
        assert Available(t, n - 1, false, screen);
        ShowImageLands(t, n - 1, false, screen, fuel);
      }
    }
  }

  /**
   * With no images only the information box appears; a cancelled or empty
   * prompt changes nothing; a text that is not a number shows an error and
   * changes nothing.
   */
  lemma JumpIgnores(s: Slideshow, typed: Option<string>, screen: Screen, fuel: nat)
    ensures s.images == [] ==> AfterJump(s, typed, screen, fuel) == (s, Info("Jump to Image", "No images loaded."))
    ensures typed.None? || typed == Some("") ==> AfterJump(s, typed, screen, fuel).0 == s
    ensures s.images != [] && typed.Some? && typed.value != "" && ParseInt(typed.value).None? ==>
      AfterJump(s, typed, screen, fuel).0 == s && AfterJump(s, typed, screen, fuel).1.Failure?
  {
  }

  /* ---------------- the handlers ---------------- */

  method IncreaseSpeed(app: ImageSlideshowApp)
    modifies app
    ensures app.State() == AfterIncreaseSpeed(old(app.State()))
  {
    var d := app.delay - SpeedStep;
    app.delay := if MinDelay >= d then MinDelay else d;
  }

  method DecreaseSpeed(app: ImageSlideshowApp)
    modifies app
    ensures app.State() == AfterDecreaseSpeed(old(app.State()))
  {
    app.delay := app.delay + SpeedStep;
  }

  method IncreaseBrightness(app: ImageSlideshowApp, screen: Screen, fuel: nat)
    modifies app
    ensures app.State() == AfterIncreaseBrightness(old(app.State()), screen, fuel)
  {
    var b := app.brightness + BrightnessStep;
    app.brightness := if MaxBrightness <= b then MaxBrightness else b;
    app.ShowImage(app.currentIndex, true, screen, fuel);
  }

  method DecreaseBrightness(app: ImageSlideshowApp, screen: Screen, fuel: nat)
    modifies app
    ensures app.State() == AfterDecreaseBrightness(old(app.State()), screen, fuel)
  {
    var b := app.brightness - BrightnessStep;
    app.brightness := if MinBrightness >= b then MinBrightness else b;
    app.ShowImage(app.currentIndex, true, screen, fuel);
  }

  method ToggleLoop(app: ImageSlideshowApp)
    modifies app
    ensures app.State() == Flipped(old(app.State()), Loop)
  {
    app.loop := !app.loop;
  }

  method ToggleFullscreen(app: ImageSlideshowApp)
    modifies app
    ensures app.State() == Flipped(old(app.State()), Fullscreen)
  {
    app.isFullscreen := !app.isFullscreen;
  }

  method ToggleAlwaysOnTop(app: ImageSlideshowApp)
    modifies app
    ensures app.State() == Flipped(old(app.State()), AlwaysOnTop)
  {
    app.alwaysOnTop := !app.alwaysOnTop;
  }

  method ToggleShowFullHud(app: ImageSlideshowApp)
    modifies app
    ensures app.State() == Flipped(old(app.State()), FullHud)
  {
    app.showFullHud := !app.showFullHud;
  }

  method OnScroll(app: ImageSlideshowApp, e: ScrollEvent, screen: Screen, fuel: nat)
    modifies app
    ensures app.State() == AfterScroll(old(app.State()), e, screen, fuel)
  {
    if e.delta > 0 || e.num == 4 {
      app.PreviousImage(screen, fuel);
    } else if e.delta < 0 || e.num == 5 {
      app.NextImage(screen, fuel);
    }
  }

  method OnClick(app: ImageSlideshowApp, y: int, canvasHeight: int)
    modifies app
    ensures app.State() == AfterClick(old(app.State()), y, canvasHeight)
  {
    if y < canvasHeight - HudStrip {
      app.ToggleTimer();
    }
  }

  method JumpToImage(app: ImageSlideshowApp, typed: Option<string>, screen: Screen, fuel: nat) returns (dialog: Dialog)
    modifies app
    ensures (app.State(), dialog) == AfterJump(old(app.State()), typed, screen, fuel)
  {
    var choice := JumpChoice(|app.images|, typed);
    if choice.Go? {
      app.timerRunning, app.afterId := false, None;
      app.ShowImage(choice.index, false, screen, fuel);
      dialog := Quiet;
    } else {
      dialog := choice.dialog;
    }
  }
}
