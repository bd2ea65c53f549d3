/**
 * The restore watcher's terminal output (`_truncate`, `build_metrics_line`,
 * `build_tqdm_line`, `build_dashboard_lines` and `render_dashboard` of
 * restore_watcher.py).
 *
 * Python's fixed-point float formatting (`{x:6.2f}`) is not modelled: every
 * builder takes it as a parameter `fixed(x, width, precision)`, so the text
 * around the numbers is exact while the digits of the numbers are an input.
 */
module RestoreRender {
  import opened Wrappers
  import opened Text
  import opened RestoreProgress
  import opened RestoreMetrics

  /** `f"{x:{width}.{precision}f}"`, supplied by the caller. */
  type Formatter = (real, nat, nat) -> string

  /** The number of cells of the progress bar. */
  const BarWidth := 28

  /** The longest log line shown in the dashboard. */
  const LogLineLimit := 140

  /** The number of recent log lines shown under the status line. */
  const RecentLogCount := 5

  /** `_truncate`: a string of at most `length` characters, ending in `...` when cut and `length > 3`. */
  function Truncate(value: string, length: int): (r: string)
    ensures |value| <= length ==> r == value
    ensures |value| > length && length > 3 ==>
      |r| == length && r[..length - 3] == value[..length - 3] && r[length - 3..] == "..."
    ensures |value| > length && 0 <= length <= 3 ==> r == value[..length]
    ensures |value| > length && length < 0 ==> r == value[..if |value| + length < 0 then 0 else |value| + length]
  {
    if |value| <= length then value
    else if length <= 3 then
      // `value[:length]`, where a negative bound counts from the end
      if length >= 0 then value[..length]
      else value[..if |value| + length < 0 then 0 else |value| + length]
    else value[..length - 3] + "..."
  }

  /** A truncated string never exceeds a non-negative limit and is otherwise a prefix of the original (up to the ellipsis). */
  lemma TruncateBound(value: string, length: nat)
    ensures |Truncate(value, length)| <= length
    ensures |Truncate(value, length)| <= |value|
  {
  }

  /** `value / total * 100` when the total is positive, 0 otherwise. */
  function SharePercent(value: real, total: real): (p: real)
    ensures total > 0.0 ==> p * total == value * 100.0
    ensures total <= 0.0 ==> p == 0.0
  {
    if total > 0.0 then
      DivMul(value * 100.0, total);
      value / total * 100.0
    else 0.0
  }

  /** The ETA part of the metrics line. */
  function MetricsEtaText(eta: Eta): (t: string)
    ensures t == "ETA: n/a" <==> eta.Infinite?
  {
    match eta
    case Infinite => "ETA: n/a"
    case Finite(secs) =>
      FormatEtaReadsBack(secs);
      assert ("ETA: " + FormatEta(secs))[5..] == FormatEta(secs);
      "ETA: " + FormatEta(secs)
  }

  const NoMetricsLine := "Progress: n/a | Speed: 0.00 | ETA: n/a"

  /** `build_metrics_line`: progress, speed and ETA of the latest point. */
  function BuildMetricsLine(points: seq<Point>, fixed: Formatter): (line: string)
    ensures points == [] ==> line == NoMetricsLine
    ensures points != [] ==>
      StartsWith(line, "Progress: ") && EndsWith(line, " | " + MetricsEtaText(EtaWithMemory(points, 0.0)))
  {
    if points == [] then NoMetricsLine
    else
      var progressAndSpeed := ProgressAndSpeed(points[|points| - 1], SpeedWithMemory(points, 0.0), fixed);
      var etaPart := " | " + MetricsEtaText(EtaWithMemory(points, 0.0));
      AppendEnds(progressAndSpeed, etaPart);
      AppendEnds("Progress: ", progressAndSpeed[10..]);
      assert progressAndSpeed == "Progress: " + progressAndSpeed[10..];
      StartsWithTrans(progressAndSpeed + etaPart, progressAndSpeed, "Progress: ");
      progressAndSpeed + etaPart
  }

  /** The progress and speed parts: a percentage alone, or with the GiB transferred and the total. */
  function ProgressAndSpeed(last: Point, speed: real, fixed: Formatter): (t: string)
    ensures StartsWith(t, "Progress: ")
  {
    var rest :=
      if last.total.None? then
        fixed(last.value, 0, 1) + "%" + " | " + "Speed: " + fixed(speed, 0, 2) + " %/s"
      else
        fixed(SharePercent(last.value, last.total.value), 0, 1) + "% ("
        + fixed(last.value, 0, 2) + "/" + fixed(last.total.value, 0, 2) + " GiB)"
        + " | " + "Speed: " + fixed(speed, 0, 2) + " GiB/s";
    AppendEnds("Progress: ", rest);
    "Progress: " + rest
  }

  function Clamp100(x: real): (r: real)
    ensures 0.0 <= r <= 100.0
    ensures 0.0 <= x <= 100.0 ==> r == x
  {
    if x < 0.0 then 0.0 else if x > 100.0 then 100.0 else x
  }

  /** The percentage the bar shows: transferred/total clamped to [0, 100], or the value itself when there is no positive total. */
  function BarPercent(points: seq<Point>): (p: real)
    ensures 0.0 <= p <= 100.0
    ensures points == [] ==> p == 0.0
  {
    if points == [] then 0.0
    else
      var last := points[|points| - 1];
      if last.total.Some? && last.total.value > 0.0 then Clamp100(SharePercent(last.value, last.total.value))
      else Clamp100(last.value)
  }

  /** The number of filled cells of the 28-cell bar, rounded down. */
  function Filled(percent: real): (f: nat)
    requires 0.0 <= percent <= 100.0
    ensures f <= BarWidth
    ensures f as real <= percent * BarWidth as real / 100.0 < f as real + 1.0
  {
    (percent / 100.0 * BarWidth as real).Floor
  }

  /** More progress never empties a cell; an empty restore shows none and a finished one all. */
  lemma FilledMonotone(p: real, q: real)
    requires 0.0 <= p <= q <= 100.0
    ensures Filled(p) <= Filled(q)
    ensures Filled(0.0) == 0 && Filled(100.0) == BarWidth
  {
  }

  function Repeat(c: char, n: nat): (r: string)
    ensures |r| == n && forall i :: 0 <= i < n ==> r[i] == c
  {
    seq(n, _ => c)
  }

  /** The bar in brackets: `filled` cells of '=' followed by '.' up to the full width. */
  function Bar(filled: nat): (bar: string)
    requires filled <= BarWidth
    ensures |bar| == BarWidth + 2 && bar[0] == '[' && bar[BarWidth + 1] == ']'
    ensures forall i :: 1 <= i <= BarWidth ==> bar[i] == if i <= filled then '=' else '.'
  {
    "[" + Repeat('=', filled) + Repeat('.', BarWidth - filled) + "]"
  }

  function EtaText(eta: Eta): (t: string)
    ensures t == "n/a" <==> eta.Infinite?
  {
    match eta
    case Infinite => "n/a"
    case Finite(secs) => FormatEtaReadsBack(secs); FormatEta(secs)
  }

  function WaitingText(waiting: bool): string
  {
    if waiting then " waiting log" else ""
  }

  /** `build_tqdm_line`: bar, percent, sizes, current and average speed in MiB/s, elapsed time and ETA. */
  function BuildTqdmLine(points: seq<Point>, speed: real, averageSpeed: real, eta: Eta, waiting: bool,
                         fixed: Formatter): (line: string)
    ensures |line| >= BarWidth + 2 && line[..BarWidth + 2] == Bar(Filled(BarPercent(points)))
    ensures EndsWith(line, " | ETA " + EtaText(eta) + WaitingText(waiting))
  {
    var percent := BarPercent(points);
    var transferred := if points == [] then 0.0 else points[|points| - 1].value;
    var total := if points == [] then None else points[|points| - 1].total;
    var elapsedText :=
      if points == [] then "00:00:00"
      else FormatEta((if points[|points| - 1].elapsed < 0 then 0 else points[|points| - 1].elapsed) as real);
    var sizeText :=
      if total.Some? && total.value > 0.0 then fixed(transferred, 6, 2) + "/" + fixed(total.value, 6, 2) + " GiB"
      else fixed(transferred, 6, 2) + " %";
    var middle := " " + fixed(percent, 5, 1) + "% | " + sizeText
      + " | Now " + fixed(speed * 1024.0, 6, 1) + " MiB/s | Avg " + fixed(averageSpeed * 1024.0, 6, 1) + " MiB/s"
      + " | Elapsed " + elapsedText;
    var suffix := " | ETA " + EtaText(eta) + WaitingText(waiting);
    ThreeParts(Bar(Filled(percent)), middle, suffix);
    Bar(Filled(percent)) + (middle + suffix)
  }

  lemma ThreeParts(a: string, b: string, c: string)
    ensures (a + (b + c))[..|a|] == a && EndsWith(a + (b + c), c)
  {
    assert (a + (b + c))[|a + (b + c)| - |c|..] == c;
  }

  /** The five most recent log lines, or all of them when there are fewer. */
  function LastLogs(recentLogs: seq<string>): (r: seq<string>)
    ensures |r| == if |recentLogs| < RecentLogCount then |recentLogs| else RecentLogCount
    ensures r == recentLogs[|recentLogs| - |r|..]
  {
    if |recentLogs| <= RecentLogCount then recentLogs else recentLogs[|recentLogs| - RecentLogCount..]
  }

  /** A log line as the dashboard shows it: indented by two spaces and cut to 140 characters. */
  function LogLine(line: string): (shown: string)
    ensures |shown| <= LogLineLimit + 2
    ensures |line| <= LogLineLimit ==> shown == "  " + line
    ensures |line| > LogLineLimit ==> shown == "  " + line[..LogLineLimit - 3] + "..."
  {
    TruncateBound(line, LogLineLimit);
    "  " + Truncate(line, LogLineLimit)
  }

  /**
   * `build_dashboard_lines` (without colours): the status line, then each of
   * the last five log lines indented by two spaces and cut to 140 characters.
   */
  method BuildDashboardLines(points: seq<Point>, speed: real, averageSpeed: real, eta: Eta,
                             recentLogs: seq<string>, waiting: bool, fixed: Formatter)
    returns (lines: seq<string>)
    ensures |lines| == 1 + |LastLogs(recentLogs)|
    ensures lines[0] == BuildTqdmLine(points, speed, averageSpeed, eta, waiting, fixed)
    ensures forall i :: 1 <= i < |lines| ==> lines[i] == LogLine(LastLogs(recentLogs)[i - 1])
    ensures lines == [lines[0]] + ShownLogs(LastLogs(recentLogs))
  {
    var status := BuildTqdmLine(points, speed, averageSpeed, eta, waiting, fixed);
    var shown := IndentLogs(LastLogs(recentLogs));
    assert shown == ShownLogs(LastLogs(recentLogs));
    lines := [status] + shown;
    forall i | 1 <= i < |lines|
      ensures lines[i] == LogLine(LastLogs(recentLogs)[i - 1])
    {
      assert lines[i] == shown[i - 1];
    }
  }

  /** The log lines as the dashboard shows them, in order. */
  function ShownLogs(logs: seq<string>): (shown: seq<string>)
    ensures |shown| == |logs|
  {
    seq(|logs|, i requires 0 <= i < |logs| => LogLine(logs[i]))
  }

  /** The loop of `build_dashboard_lines` over the recent log lines. */
  method IndentLogs(logs: seq<string>) returns (shown: seq<string>)
    ensures |shown| == |logs|
    ensures forall i :: 0 <= i < |logs| ==> shown[i] == LogLine(logs[i])
  {
    shown := [];
    var k := 0;
    while k < |logs|
      invariant 0 <= k <= |logs|
      invariant |shown| == k
      invariant forall i :: 0 <= i < k ==> shown[i] == LogLine(logs[i])
    {
      shown := shown + [LogLine(logs[k])];
      k := k + 1;
    }
  }

  const Esc: char := 27 as char

  /** `\033[<n>A`: move the cursor up `n` lines. */
  function CursorUp(n: nat): string
  {
    [Esc] + "[" + NatToString(n) + "A"
  }

  /** `\033[2K`: clear the current line. */
  const ClearLine := [Esc] + "[2K"

  /** Each line as written: cleared first on a terminal, then followed by a newline. */
  function RenderedLines(lines: seq<string>, isTty: bool): (out: string)
  {
    if lines == [] then ""
    else RenderedLines(lines[..|lines| - 1], isTty) + (if isTty then ClearLine else "") + lines[|lines| - 1] + "\n"
  }

  /** Rendering takes each line, its newline and (on a terminal) the clear sequence, and nothing else. */
  lemma {:induction false} RenderedLength(lines: seq<string>, isTty: bool)
    ensures |RenderedLines(lines, isTty)| == TotalLength(lines) + |lines| * (if isTty then 5 else 1)
  {
    if lines != [] {
      RenderedLength(lines[..|lines| - 1], isTty);
    }
  }

  /** Rendering writes the first line first, then the rest as rendered on their own. */
  lemma {:induction false} RenderedFirst(lines: seq<string>, isTty: bool)
    requires lines != []
    ensures RenderedLines(lines, isTty)
         == (if isTty then ClearLine else "") + lines[0] + "\n" + RenderedLines(lines[1..], isTty)
  {
    if |lines| > 1 {
      var init := lines[..|lines| - 1];
      RenderedFirst(init, isTty);
      assert init[0] == lines[0];
      assert init[1..] == lines[1..][..|lines[1..]| - 1];
    }
  }

  /** A dashboard renders as its cleared status line, then its log lines. */
  lemma RenderedDashboard(status: string, logs: seq<string>, isTty: bool)
    ensures RenderedLines([status] + logs, isTty)
         == (if isTty then ClearLine else "") + status + "\n" + RenderedLines(logs, isTty)
  {
    RenderedFirst([status] + logs, isTty);
    assert ([status] + logs)[1..] == logs;
  }

  function TotalLength(lines: seq<string>): nat
  {
    if lines == [] then 0 else TotalLength(lines[..|lines| - 1]) + |lines[|lines| - 1]|
  }

  /**
   * `render_dashboard`: on a terminal that already shows a dashboard, first
   * move up over it; then write every line. Returns the text written and the
   * number of lines, which the next call moves up over.
   */
  method RenderDashboard(lines: seq<string>, previousLineCount: int, isTty: bool)
    returns (written: string, count: nat)
    ensures count == |lines|
    ensures written == (if isTty && previousLineCount > 0 then CursorUp(previousLineCount) else "")
                       + RenderedLines(lines, isTty)
  {
    written := "";
    if isTty && previousLineCount > 0 {
      written := CursorUp(previousLineCount);
    }
    ghost var prefix := written;
    var k := 0;
    while k < |lines|
      invariant 0 <= k <= |lines|
      invariant written == prefix + RenderedLines(lines[..k], isTty)
    {
      assert lines[..k + 1][..k] == lines[..k];
      if isTty {
        written := written + ClearLine;
      }
      written := written + lines[k] + "\n";
      k := k + 1;
    }
    assert lines[..k] == lines;
    count := |lines|;
  }
}
