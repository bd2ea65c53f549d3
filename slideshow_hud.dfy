// The text of the slideshow's heads-up display
// (slideshow/src/slideshow/hud.py). Measuring the text and drawing the
// background and the text on the canvas are left out; `HudText` is the text
// `update_hud` would draw, or `None` when it draws nothing. The delay and the
// brightness rendered with one decimal (`f"{x:.1f}"`) and the wall-clock time
// are parameters.

module SlideshowHud {
  import opened Wrappers
  import opened Text
  import opened Numbers
  import opened SlideshowImages
  import opened SlideshowApp

  const MinCanvasWidth := 200
  const MinCanvasHeight := 60
  const MaxNameLength := 40
  const Star := " \U{2605}"

  const ShortcutHeading := "Shortcuts (h to toggle):"

  /** The shortcuts of `get_hud_shortcut_text`, one group per line below the heading. */
  const ShortcutGroups: seq<seq<string>> := [
    ["Play/Pause: Space", "Next/Prev: \U{2192}/\U{2190}, Scroll", "Jump +/-10: \U{2191}/\U{2193}"],
    ["Speed +/-: -/=", "Brightness +/-: k/l", "Fullscreen: f", "Always on Top: w"],
    ["Shuffle: s", "Sort by Time: t", "Jump to #: j", "Loop: b", "Auto-Stop: a"],
    ["Info: i", "Favorite: z", "Yoink (macOS): y", "Quit: q, Esc"]
  ]

  /** A line of shortcuts: indented by two spaces, separated by " | ". */
  function ShortcutLine(group: seq<string>): string
  {
    "  " + JoinWith(group, " | ")
  }

  /** The lines of `get_hud_shortcut_text`. */
  const ShortcutLines: seq<string> := [
    ShortcutHeading,
    ShortcutLine(ShortcutGroups[0]), ShortcutLine(ShortcutGroups[1]),
    ShortcutLine(ShortcutGroups[2]), ShortcutLine(ShortcutGroups[3])
  ]

  /** `get_hud_shortcut_text` */
  function ShortcutText(): string
  {
    Join(ShortcutLines, '\n')
  }

  /**
   * The help text is its five lines, one per text line, from the heading
   * down to the line that ends with how to quit.
   */
  lemma ShortcutTextLines()
    ensures Split(ShortcutText(), '\n') == ShortcutLines && |ShortcutLines| == 5
    ensures StartsWith(ShortcutText(), ShortcutHeading)
    ensures EndsWith(ShortcutText(), "Quit: q, Esc")
  {
    ShortcutLinesLack();
    GroupLacks3();
    SplitJoin(ShortcutLines, '\n');
    JoinEnds(ShortcutLines, '\n');
    var last := ShortcutLines[4];
    AppendEnds("  ", JoinWith(ShortcutGroups[3], " | "));
    EndsWithTrans(ShortcutText(), last, JoinWith(ShortcutGroups[3], " | "));
    EndsWithTrans(ShortcutText(), JoinWith(ShortcutGroups[3], " | "), "Quit: q, Esc");
  }

  /** A line of shortcuts without a newline in them has none, and ends with the last of them. */
  lemma ShortcutLineLacks(group: seq<string>)
    requires group != [] && forall k :: 0 <= k < |group| ==> Lacks(group[k], '\n')
    ensures Lacks(ShortcutLine(group), '\n') && EndsWith(JoinWith(group, " | "), group[|group| - 1])
  {
    SeparatorsLack();
    JoinWithLacks(group, " | ", '\n');
    LacksAppend("  ", JoinWith(group, " | "), '\n');
  }

  lemma SeparatorsLack()
    ensures Lacks(" | ", '\n') && Lacks("  ", '\n')
  {
    assert " | "[0] == ' ' && " | "[1] == '|' && " | "[2] == ' ';
  }

  /** No line of the help text has a newline in it. */
  lemma ShortcutLinesLack()
    ensures forall k :: 0 <= k < |ShortcutLines| ==> Lacks(ShortcutLines[k], '\n')
  {
    assert Lacks(ShortcutHeading, '\n');
    GroupLacks0();
    GroupLacks1();
    GroupLacks2();
    GroupLacks3();
    forall k | 0 <= k < |ShortcutLines|
      ensures Lacks(ShortcutLines[k], '\n')
    {
      if k == 0 {
      } else if k == 1 {
      } else if k == 2 {
      } else if k == 3 {
      } else {
      }
    }
  }

  lemma GroupLacks0()
    ensures Lacks(ShortcutLines[1], '\n')
  {
    assert Lacks("Play/Pause: Space", '\n') && Lacks("Next/Prev: \U{2192}/\U{2190}, Scroll", '\n')
      && Lacks("Jump +/-10: \U{2191}/\U{2193}", '\n');
    ShortcutLineLacks(ShortcutGroups[0]);
  }

  lemma GroupLacks1()
    ensures Lacks(ShortcutLines[2], '\n')
  {
    assert Lacks("Speed +/-: -/=", '\n') && Lacks("Brightness +/-: k/l", '\n') && Lacks("Fullscreen: f", '\n')
      && Lacks("Always on Top: w", '\n');
    ShortcutLineLacks(ShortcutGroups[1]);
  }

  lemma GroupLacks2()
    ensures Lacks(ShortcutLines[3], '\n')
  {
    assert Lacks("Shuffle: s", '\n') && Lacks("Sort by Time: t", '\n') && Lacks("Jump to #: j", '\n')
      && Lacks("Loop: b", '\n') && Lacks("Auto-Stop: a", '\n');
    ShortcutLineLacks(ShortcutGroups[2]);
  }

  lemma GroupLacks3()
    ensures Lacks(ShortcutLines[4], '\n') && EndsWith(JoinWith(ShortcutGroups[3], " | "), "Quit: q, Esc")
  {
    assert Lacks("Info: i", '\n') && Lacks("Favorite: z", '\n') && Lacks("Yoink (macOS): y", '\n')
      && Lacks("Quit: q, Esc", '\n');
    ShortcutLineLacks(ShortcutGroups[3]);
  }

  /* ---------------- the status labels ---------------- */

  function PlayLabel(timerRunning: bool): string
  {
    if timerRunning then "Playing" else "Paused"
  }

  function LoopLabel(loop: bool): string
  {
    if loop then "Loop: On" else "Loop: Off"
  }

  /** The whole seconds left until the stop time, never negative. */
  function RemainingSeconds(stopTime: real, now: real): (n: nat)
    ensures stopTime >= now ==> n as real <= stopTime - now < n as real + 1.0
    ensures stopTime < now + 1.0 ==> n == 0
  {
    var t := Truncate(stopTime - now);
    if 0 >= t then 0 else t
  }

  /** The auto-stop label, with the seconds left while a stop time is set. */
  function AutoStopLabel(autoStop: bool, stopTime: real, now: real): string
  {
    var shown := if autoStop then "AutoStop: On" else "AutoStop: Off";
    if autoStop && stopTime > 0.0 then shown + " (" + NatToString(RemainingSeconds(stopTime, now)) + "s)"
    else shown
  }

  /**
   * The auto-stop label says which way the flag is, and carries a count of
   * seconds exactly when auto-stop is on with a stop time set; it never ends
   * the way the help text does.
   */
  lemma AutoStopLabelSays(autoStop: bool, stopTime: real, now: real)
    ensures var shown := AutoStopLabel(autoStop, stopTime, now);
      StartsWith(shown, if autoStop then "AutoStop: On" else "AutoStop: Off")
      && (shown[|shown| - 1] == ')' <==> autoStop && stopTime > 0.0)
      && shown[|shown| - 1] != 'c'
  {
    var shown := if autoStop then "AutoStop: On" else "AutoStop: Off";
    if autoStop && stopTime > 0.0 {
      var full := shown + " (" + NatToString(RemainingSeconds(stopTime, now)) + "s)";
      assert full[..|shown|] == shown;
    }
  }

  /* ---------------- the image counter and name ---------------- */

  /** The one-based position, a slash and the number of images, with a star for a favorite, or "No images". */
  function Counter(images: seq<Path>, currentIndex: int, favorites: seq<int>): string
  {
    if images != [] && 0 <= currentIndex < |images| then
      NatToString(currentIndex + 1) + "/" + NatToString(|images|) + (if currentIndex in favorites then Star else "")
    else "No images"
  }

  /** "x/y" reads back as `x` and `y`. */
  lemma FractionReadsBack(x: nat, y: nat)
    ensures var parts := Split(NatToString(x) + "/" + NatToString(y), '/');
      |parts| == 2 && DigitsValue(parts[0]) == x && DigitsValue(parts[1]) == y
  {
    var a := NatToString(x);
    var b := NatToString(y);
    assert Lacks(a, '/') && Lacks(b, '/');
    SplitJoin([a, b], '/');
    assert Join([a, b], '/') == a + "/" + b;
    DigitsValueOfNatToString(x);
    DigitsValueOfNatToString(y);
  }

  /**
   * For a valid index the counter reads back as the position from 1 and
   * the number of images, and ends in a star exactly for a favorite; with
   * no images or an index out of range it says so.
   */
  lemma CounterReadsBack(images: seq<Path>, currentIndex: int, favorites: seq<int>)
    ensures !(images != [] && 0 <= currentIndex < |images|) ==> Counter(images, currentIndex, favorites) == "No images"
    ensures images != [] && 0 <= currentIndex < |images| ==>
      var c := Counter(images, currentIndex, favorites);
      var bare := if currentIndex in favorites then c[..|c| - |Star|] else c;
      (EndsWith(c, Star) <==> currentIndex in favorites)
      && |Split(bare, '/')| == 2
      && DigitsValue(Split(bare, '/')[0]) == currentIndex + 1
      && DigitsValue(Split(bare, '/')[1]) == |images|
  {
    if images != [] && 0 <= currentIndex < |images| {
      var b := NatToString(|images|);
      var bare := NatToString(currentIndex + 1) + "/" + b;
      var c := Counter(images, currentIndex, favorites);
      FractionReadsBack(currentIndex + 1, |images|);
      if currentIndex in favorites {
        assert c == bare + Star;
        AppendEnds(bare, Star);
        assert c[..|c| - |Star|] == bare;
      } else {
        assert c == bare;
        assert c[|c| - 1] == b[|b| - 1];
      }
    }
  }

  /** A file name over 40 characters becomes its first 37 and "...". */
  function ShortName(name: string): (r: string)
    ensures |r| <= MaxNameLength
    ensures |name| <= MaxNameLength ==> r == name
    ensures |name| > MaxNameLength ==> |r| == MaxNameLength && r[..MaxNameLength - 3] == name[..MaxNameLength - 3] && EndsWith(r, "...")
  {
    if |name| > MaxNameLength then name[..MaxNameLength - 3] + "..." else name
  }

  /** The name shown for the current image, "" when there is none. */
  function ImageName(images: seq<Path>, currentIndex: int): string
  {
    if images != [] && 0 <= currentIndex < |images| then ShortName(Name(images[currentIndex])) else ""
  }

  /* ---------------- the text ---------------- */

  /** The non-empty lines, in order. */
  function NonEmpty(lines: seq<string>): (r: seq<string>)
    ensures forall k :: 0 <= k < |r| ==> r[k] != ""
    ensures (forall k :: 0 <= k < |lines| ==> lines[k] != "") ==> r == lines
  {
    if lines == [] then []
    else (if lines[0] == "" then [] else [lines[0]]) + NonEmpty(lines[1..])
  }

  /** The lines separated by newlines, "" for no lines. */
  function JoinLines(lines: seq<string>): string
  {
    if lines == [] then "" else Join(lines, '\n')
  }

  /** The status line: play state, counter and name. */
  function StatusLine(s: Slideshow): string
  {
    var name := ImageName(s.images, s.currentIndex);
    PlayLabel(s.timerRunning) + " | " + Counter(s.images, s.currentIndex, s.favorites) + (if name != "" then " - " + name else "")
  }

  /** The settings line, with the delay and brightness already rendered with one decimal. */
  function SettingsLine(s: Slideshow, now: real, delayText: string, brightnessText: string): string
  {
    "Delay: " + delayText + "s | Bright: " + brightnessText + " | " + LoopLabel(s.settings.loop)
    + " | " + AutoStopLabel(s.settings.autoStop, s.settings.stopTime, now)
  }

  /** The lines `update_hud` assembles, before the empty ones are filtered out. */
  function HudLines(s: Slideshow, now: real, delayText: string, brightnessText: string): seq<string>
  {
    [StatusLine(s), SettingsLine(s, now, delayText, brightnessText)]
    + (if s.settings.showFullHud && ShortcutText() != "" then [ShortcutText()] else [])
  }

  /** A text is drawn unless it is blank. */
  function Drawn(text: string): Option<string>
  {
    if Strip(text) == [] then None else Some(text)
  }

  /** The text `update_hud` draws on a canvas `width` by `height`, or `None` when it draws nothing. */
  function HudText(s: Slideshow, width: int, height: int, now: real, delayText: string, brightnessText: string): Option<string>
  {
    if width < MinCanvasWidth || height < MinCanvasHeight then None
    else Drawn(JoinLines(NonEmpty(HudLines(s, now, delayText, brightnessText))))
  }

  /** The status line opens with the play state. */
  lemma StatusLineOpens(s: Slideshow)
    ensures StartsWith(StatusLine(s), PlayLabel(s.timerRunning))
  {
    var name := ImageName(s.images, s.currentIndex);
    var rest := " | " + Counter(s.images, s.currentIndex, s.favorites) + (if name != "" then " - " + name else "");
    assert StatusLine(s) == PlayLabel(s.timerRunning) + rest;
    AppendEnds(PlayLabel(s.timerRunning), rest);
  }

  /** A text that opens with the play state opens with "Playing" exactly when the timer runs. */
  lemma PlayingPrefix(text: string, timerRunning: bool)
    requires StartsWith(text, PlayLabel(timerRunning))
    ensures StartsWith(text, "Playing") <==> timerRunning
    ensures text != [] && !IsSpace(text[0])
  {
    assert text[0] == PlayLabel(timerRunning)[0];
    assert text[1] == PlayLabel(timerRunning)[1];
  }

  /** No line is empty, so the lines are joined as they are, and the text is never blank. */
  lemma HudTextLines(s: Slideshow, width: int, height: int, now: real, delayText: string, brightnessText: string)
    requires width >= MinCanvasWidth && height >= MinCanvasHeight
    ensures var two := StatusLine(s) + "\n" + SettingsLine(s, now, delayText, brightnessText);
      HudText(s, width, height, now, delayText, brightnessText)
        == Some(if s.settings.showFullHud then two + "\n" + ShortcutText() else two)
  {
    var status := StatusLine(s);
    var settings := SettingsLine(s, now, delayText, brightnessText);
    var help := ShortcutText();
    ShortcutTextLines();
    StatusLineOpens(s);
    var full := s.settings.showFullHud;
    assert HudLines(s, now, delayText, brightnessText) == [status, settings] + (if full then [help] else []);
    var text := JoinedLines(status, settings, help, full);
    OpensWithPlayState(s, text, settings, help);
    StripEmpty(text);
  }

  /** Three lines, or the first two, none of them empty, joined by newlines. */
  lemma JoinedLines(a: string, b: string, c: string, full: bool) returns (text: string)
    requires a != [] && b != [] && c != []
    ensures text == (if full then a + "\n" + b + "\n" + c else a + "\n" + b)
    ensures JoinLines(NonEmpty([a, b] + (if full then [c] else []))) == text
  {
    var lines := [a, b] + (if full then [c] else []);
    assert NonEmpty(lines) == lines;
    assert lines == if full then [a, b, c] else [a, b];
    JoinTwoOrThree(a, b, c);
    text := if full then a + "\n" + b + "\n" + c else a + "\n" + b;
  }

  /** The joined text opens with the play state. */
  lemma OpensWithPlayState(s: Slideshow, text: string, settings: string, help: string)
    requires text == StatusLine(s) + "\n" + settings || text == StatusLine(s) + "\n" + settings + "\n" + help
    ensures StartsWith(text, StatusLine(s) + "\n" + settings) && StartsWith(text, PlayLabel(s.timerRunning))
    ensures !IsSpace(text[0])
  {
    var status := StatusLine(s);
    var two := status + "\n" + settings;
    AppendEnds(two + "\n", help);
    AppendEnds(two, "\n");
    if text != two {
      StartsWithTrans(text, two + "\n", two);
    }
    AppendEnds(status + "\n", settings);
    AppendEnds(status, "\n");
    StartsWithTrans(two, status + "\n", status);
    StartsWithTrans(text, two, status);
    StatusLineOpens(s);
    StartsWithTrans(text, status, PlayLabel(s.timerRunning));
    PlayingPrefix(text, s.timerRunning);
  }

  lemma JoinTwoOrThree(a: string, b: string, c: string)
    ensures JoinLines([a, b]) == a + "\n" + b
    ensures JoinLines([a, b, c]) == a + "\n" + b + "\n" + c
  {
    assert [a, b, c][1..] == [b, c] && [a, b][1..] == [b] && [b, c][1..] == [c];
    assert Join([a, b], '\n') == a + ['\n'] + b;
    assert Join([b, c], '\n') == b + ['\n'] + c;
    assert Join([a, b, c], '\n') == a + ['\n'] + (b + ['\n'] + c);
  }

  /**
   * The display is drawn exactly on a canvas at least 200 wide and 60 high.
   * Its text opens with "Playing" exactly when the timer runs, holds the
   * settings line right after the status line, and ends with the help text
   * exactly when the full display is on.
   */
  lemma HudShows(s: Slideshow, width: int, height: int, now: real, delayText: string, brightnessText: string)
    ensures HudText(s, width, height, now, delayText, brightnessText).None? <==> width < MinCanvasWidth || height < MinCanvasHeight
    ensures HudText(s, width, height, now, delayText, brightnessText).Some? ==>
      var text := HudText(s, width, height, now, delayText, brightnessText).value;
      (StartsWith(text, "Playing") <==> s.timerRunning)
      && StartsWith(text, StatusLine(s) + "\n" + SettingsLine(s, now, delayText, brightnessText))
      && (EndsWith(text, ShortcutText()) <==> s.settings.showFullHud)
  {
    if width >= MinCanvasWidth && height >= MinCanvasHeight {
      HudTextLines(s, width, height, now, delayText, brightnessText);
      var two := StatusLine(s) + "\n" + SettingsLine(s, now, delayText, brightnessText);
      var help := ShortcutText();
      var text := if s.settings.showFullHud then two + "\n" + help else two;
      OpensWithPlayState(s, text, SettingsLine(s, now, delayText, brightnessText), help);
      PlayingPrefix(text, s.timerRunning);
      HudEnding(s, now, delayText, brightnessText);
    }
  }

  /** The help text ends in 'c', the settings line never does. */
  lemma HudEnding(s: Slideshow, now: real, delayText: string, brightnessText: string)
    ensures var two := StatusLine(s) + "\n" + SettingsLine(s, now, delayText, brightnessText);
      EndsWith(two + "\n" + ShortcutText(), ShortcutText()) && !EndsWith(two, ShortcutText())
  {
    var settings := SettingsLine(s, now, delayText, brightnessText);
    var two := StatusLine(s) + "\n" + settings;
    var help := ShortcutText();
    ShortcutTextLines();
    AppendEnds(two + "\n", help);
    var shown := AutoStopLabel(s.settings.autoStop, s.settings.stopTime, now);
    AutoStopLabelSays(s.settings.autoStop, s.settings.stopTime, now);
    assert two[|two| - 1] == shown[|shown| - 1];
    assert help[|help| - 1] == 'c';
  }
}
