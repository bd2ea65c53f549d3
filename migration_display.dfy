// The migration watcher's terminal block
// (proxmox/migration-watcher/watcher.py, update_cli_display).
//
// Every refresh writes exactly NUM_CLI_OUTPUT_LINES = 17 lines: four lines of
// statistics, a separator, eight graph lines, a separator, a title and the
// last two recent log lines, padded with empty lines. After the first
// refresh the cursor first moves up over the previous block. The graph
// library is a parameter (`Plotter`): the model only fixes how many of its
// lines are kept and how the rest is padded.

module MigrationDisplay {
  import opened Wrappers
  import opened Text
  import opened MigrationTasks
  import opened MigrationMetrics
  import RestoreMetrics
  import RestoreRender

  const PlotHeight := 8
  const StatsLines := 4
  /** Stats + separator, graph, separator + log title + two log lines. */
  const CliLines := StatsLines + (PlotHeight + 2) + 1 + 2
  /** The number of lines the recent-log queue keeps: a third of the output lines, rounded down, and at least one. */
  const RecentLogHistory := if CliLines / 3 > 1 then CliLines / 3 else 1

  /** The graph library: the lines of a plot of the speed history. */
  type Plotter = seq<real> -> seq<string>

  /** What stays the same during a run: the graph width, the folders of task logs, the graph and number formatting. */
  datatype Screen = Screen(width: nat, fs: FileSystem, plot: Plotter, fixed: RestoreRender.Formatter)

  /** What one refresh shows. */
  datatype Frame = Frame(task: MigrationTask, times: seq<int>, progresses: seq<real>, total: Option<real>,
                         speeds: seq<real>, recent: seq<string>, status: string)

  /** What the source relies on: parallel sample lists and an id with a node field. */
  predicate WellFormed(f: Frame)
  {
    |f.times| == |f.progresses| && |Split(f.task.upid, ':')| >= 2
  }

  /** The node of a task id: its second colon-separated field. */
  function NodeOf(upid: string): string
    requires |Split(upid, ':')| >= 2
  {
    Split(upid, ':')[1]
  }

  /** Every parsed id starts with "UPID:", so it has a node field. */
  lemma IdHasNode(upid: string)
    requires StartsWith(upid, "UPID:")
    ensures |Split(upid, ':')| >= 2
  {
    assert upid == "UPID" + [':'] + upid[5..];
    SplitAtFirst("UPID", upid[5..], ':');
  }

  /** The first `n` items, or all of them when there are fewer. */
  function Take<T>(xs: seq<T>, n: nat): (r: seq<T>)
    ensures |r| == if |xs| <= n then |xs| else n
    ensures r == xs[..|r|]
  {
    if |xs| <= n then xs else xs[..n]
  }

  /** The last `n` items, or all of them when there are fewer (`n` is positive). */
  function LastN<T>(xs: seq<T>, n: nat): (r: seq<T>)
    requires n > 0
    ensures |r| == if |xs| <= n then |xs| else n
    ensures r == xs[|xs| - |r|..]
  {
    if |xs| <= n then xs else xs[|xs| - n..]
  }

  /** Appending `filler` until there are `n` elements. */
  function PadTo<T>(xs: seq<T>, n: nat, filler: T): (r: seq<T>)
    ensures |r| == if |xs| >= n then |xs| else n
    ensures r[..|xs|] == xs && forall i :: |xs| <= i < |r| ==> r[i] == filler
  {
    if |xs| >= n then xs else xs + seq(n - |xs|, _ => filler)
  }

  /** `s` padded on the right with spaces to width `n`; longer texts are kept whole. */
  function LeftJustify(s: string, n: nat): (r: string)
    ensures |r| == if |s| >= n then |s| else n
    ensures StartsWith(r, s)
  {
    var r := PadTo(s, n, ' ');
    assert r[..|s|] == s;
    r
  }

  /* ---------------- the ETA text ---------------- */

  function IntToString(n: int): string
  {
    if n < 0 then "-" + NatToString(-n) else NatToString(n)
  }

  /** `H:MM:SS` */
  function Hms(h: nat, m: nat, s: nat): string
  {
    NatToString(h) + ":" + RestoreMetrics.Pad2(m) + ":" + RestoreMetrics.Pad2(s)
  }

  /** The time of day of a number of seconds below one day. */
  function ClockText(secs: nat): string
    requires secs < 86400
  {
    Hms(secs / 3600, secs % 3600 / 60, secs % 60)
  }

  /** The day count in front of the time of day, when there is one. */
  function DayPrefix(days: int): string
  {
    if days == 0 then ""
    else IntToString(days) + (if days == 1 || days == -1 then " day, " else " days, ")
  }

  /** A duration as Python prints a time delta: days by floor division, then the time of day. */
  function TimedeltaText(n: int): string
  {
    DayPrefix(n / 86400) + ClockText(n % 86400)
  }

  lemma NoColonInDigits(s: string)
    requires AllDigits(s)
    ensures forall j :: 0 <= j < |s| ==> s[j] != ':'
  {
  }

  /** The three colon-separated fields of `H:MM:SS`. */
  lemma HmsFields(h: nat, m: nat, s: nat)
    ensures Split(Hms(h, m, s), ':') == [NatToString(h), RestoreMetrics.Pad2(m), RestoreMetrics.Pad2(s)]
  {
    var hs := NatToString(h);
    var ms := RestoreMetrics.Pad2(m);
    var ss := RestoreMetrics.Pad2(s);
    NoColonInDigits(hs);
    NoColonInDigits(ms);
    NoColonInDigits(ss);
    assert Hms(h, m, s) == hs + [':'] + (ms + [':'] + ss);
    SplitAtFirst(hs, ms + [':'] + ss, ':');
    SplitAtFirst(ms, ss, ':');
    SplitNoSeparator(ss, ':');
  }

  /** The time of day reads back: hours, then two-digit minutes and seconds below 60. */
  lemma ClockReadsBack(secs: nat)
    requires secs < 86400
    ensures var p := Split(ClockText(secs), ':');
      |p| == 3 && |p[1]| == 2 && |p[2]| == 2
      && DigitsValue(p[1]) < 60 && DigitsValue(p[2]) < 60
      && DigitsValue(p[0]) * 3600 + DigitsValue(p[1]) * 60 + DigitsValue(p[2]) == secs
  {
    var h, m, s := secs / 3600, secs % 3600 / 60, secs % 60;
    assert h * 3600 + m * 60 + s == secs;
    HmsFields(h, m, s);
    DigitsValueOfNatToString(h);
    RestoreMetrics.Pad2Value(m);
    RestoreMetrics.Pad2Value(s);
  }

  lemma DayPrefixStarts(days: nat)
    requires days >= 1
    ensures StartsWith(DayPrefix(days), NatToString(days) + " day")
  {
    var d := NatToString(days);
    var unit := if days == 1 then " day, " else " days, ";
    assert DayPrefix(days) == d + unit;
    assert (d + unit)[..|d| + 4] == d + unit[..4];
  }

  /** Below one day no day count is shown; from one day on, the text starts with the day count. */
  lemma TimedeltaDays(n: nat)
    ensures n < 86400 ==> TimedeltaText(n) == ClockText(n)
    ensures n >= 86400 ==> StartsWith(TimedeltaText(n), NatToString(n / 86400) + " day")
  {
    if n >= 86400 {
      DayPrefixStarts(n / 86400);
      AppendEnds(DayPrefix(n / 86400), ClockText(n % 86400));
      StartsWithTrans(TimedeltaText(n), DayPrefix(n / 86400), NatToString(n / 86400) + " day");
    } else {
      assert DayPrefix(n / 86400) == "";
    }
  }

  /** The ETA shown next to the speed. */
  function EtaText(e: Estimate): (t: string)
    ensures t == "calculating..." <==> e.eta.Infinite? && e.speedMib < MinSpeed && e.percent < 100.0
    ensures t == "N/A" <==> e.eta.Infinite? && !(e.speedMib < MinSpeed && e.percent < 100.0)
    ensures t == "Completed" <==> e.eta.Finite? && e.percent >= 100.0
    ensures e.eta.Finite? && e.percent < 100.0 ==> t == TimedeltaText(e.eta.seconds)
  {
    match e.eta
    case Infinite => if e.speedMib < MinSpeed && e.percent < 100.0 then "calculating..." else "N/A"
    case Finite(secs) =>
      if e.percent >= 100.0 then "Completed"
      else
        TimedeltaNotWord(secs);
        TimedeltaText(secs)
  }

  /** A timedelta text starts with a digit or '-', so it is none of the fixed words. */
  lemma TimedeltaNotWord(n: int)
    ensures TimedeltaText(n) != "calculating..." && TimedeltaText(n) != "N/A" && TimedeltaText(n) != "Completed"
  {
    var t := TimedeltaText(n);
    var days := n / 86400;
    var clock := ClockText(n % 86400);
    if days == 0 {
      assert t[0] == clock[0] == NatToString(n % 86400 / 3600)[0];
    } else if days < 0 {
      assert t[0] == DayPrefix(days)[0] == '-';
    } else {
      assert t[0] == DayPrefix(days)[0] == NatToString(days)[0];
    }
  }

  /* ---------------- the seventeen lines ---------------- */

  function Separator(width: nat): string
  {
    RestoreRender.Repeat('-', width + 4)
  }

  function Header(f: Frame): string
    requires WellFormed(f)
  {
    "VM: " + f.task.vmid + " on " + NodeOf(f.task.upid) + " - Migration Progress (" + f.status + ")"
  }

  /** The path of the log file of the migration, or "N/A" when none was found. */
  function LogPathText(sc: Screen, f: Frame): string
  {
    var p := LocateMigrationLog(sc.fs, f.task.upid);
    if p.Some? && p.value != [] then p.value else "N/A"
  }

  /** The four statistics lines; the ETA computation can raise ZeroDivisionError. */
  function StatsBlock(sc: Screen, f: Frame): (r: Result<seq<string>, string>)
    requires WellFormed(f)
    ensures r.Err? <==> f.progresses != [] && f.total.Some? && EtaAndSpeed(f.times, f.progresses, f.total).Err?
    ensures r.Ok? ==> |r.value| == StatsLines && r.value[0] == Header(f) && r.value[1] == Separator(sc.width)
  {
    if f.progresses == [] || f.total.None? then
      Ok([Header(f), Separator(sc.width), "Waiting for first progress update from log...",
          "Log: " + Take(LogPathText(sc, f), sc.width)])
    else
      match EtaAndSpeed(f.times, f.progresses, f.total)
      case Err(e) => Err(e)
      case Ok(est) =>
        var fixed := sc.fixed;
        Ok([Header(f), Separator(sc.width),
            "Progress: " + fixed(f.progresses[|f.progresses| - 1], 0, 2) + " / " + fixed(f.total.value, 0, 2)
              + " GiB (" + fixed(est.percent, 0, 2) + "%)",
            "Speed:    " + LeftJustify(fixed(est.speedMib, 0, 1) + " MiB/s", 20) + " ETA: " + EtaText(est)])
  }

  /** The graph lines: the plot's first eight lines once there are two speeds, padded with blank lines. */
  function GraphBlock(sc: Screen, speeds: seq<real>): (g: seq<string>)
    ensures |g| == PlotHeight
    ensures |speeds| <= 1 ==> forall i :: 0 <= i < PlotHeight ==> g[i] == RestoreRender.Repeat(' ', sc.width)
  {
    var generated := if |speeds| > 1 then Take(sc.plot(speeds), PlotHeight) else [];
    Take(PadTo(generated, PlotHeight, RestoreRender.Repeat(' ', sc.width)), PlotHeight)
  }

  /** One recent log line as shown. */
  function LogLine(sc: Screen, entry: string): string
  {
    "  " + Take(entry, sc.width + 2)
  }

  /** The lines before the recent logs. */
  function UpperBlock(stats: seq<string>, sc: Screen, f: Frame): (u: seq<string>)
    requires |stats| == StatsLines
    ensures |u| == CliLines - 2
  {
    Take(stats, StatsLines) + [Separator(sc.width)] + GraphBlock(sc, f.speeds) + [Separator(sc.width), "Recent Logs:"]
  }

  /** The log lines that fit after the upper block. */
  function LogBlock(sc: Screen, recent: seq<string>, used: nat): seq<string>
  {
    var remaining := CliLines - used;
    if remaining > 0 then
      var shown := LastN(recent, remaining);
      seq(|shown|, i requires 0 <= i < |shown| => LogLine(sc, shown[i]))
    else []
  }

  /** Everything one refresh writes, before the terminal codes. */
  function DisplayLines(sc: Screen, f: Frame): (r: Result<seq<string>, string>)
    requires WellFormed(f)
  {
    match StatsBlock(sc, f)
    case Err(e) => Err(e)
    case Ok(stats) => Ok(Assembled(stats, sc, f))
  }

  /** The statistics, the graph block, the log title and the recent logs, padded and cut to 17 lines. */
  function Assembled(stats: seq<string>, sc: Screen, f: Frame): seq<string>
    requires |stats| == StatsLines
  {
    var upper := UpperBlock(stats, sc, f);
    Take(PadTo(upper + LogBlock(sc, f.recent, |upper|), CliLines, ""), CliLines)
  }

  /**
   * The block always has exactly 17 lines, in their fixed places: header and
   * separator, the graph between two separators, the title, and the last two
   * recent log lines (or empty lines while there are fewer).
   */
  lemma DisplayLayout(sc: Screen, f: Frame)
    requires WellFormed(f) && DisplayLines(sc, f).Ok?
    ensures var lines := DisplayLines(sc, f).value;
      var shown := LastN(f.recent, 2);
      |lines| == CliLines
      && lines[0] == Header(f) && lines[1] == Separator(sc.width)
      && lines[4] == Separator(sc.width) && lines[5..13] == GraphBlock(sc, f.speeds)
      && lines[13] == Separator(sc.width) && lines[14] == "Recent Logs:"
      && (forall i :: 0 <= i < |shown| ==> lines[15 + i] == LogLine(sc, shown[i]))
      && (forall i :: 15 + |shown| <= i < CliLines ==> lines[i] == "")
  {
    AssembledLayout(StatsBlock(sc, f).value, sc, f);
  }

  lemma AssembledLayout(stats: seq<string>, sc: Screen, f: Frame)
    requires |stats| == StatsLines
    ensures var lines := Assembled(stats, sc, f);
      var shown := LastN(f.recent, 2);
      |lines| == CliLines && lines[..StatsLines] == stats
      && lines[4] == Separator(sc.width) && lines[5..13] == GraphBlock(sc, f.speeds)
      && lines[13] == Separator(sc.width) && lines[14] == "Recent Logs:"
      && (forall i :: 0 <= i < |shown| ==> lines[15 + i] == LogLine(sc, shown[i]))
      && (forall i :: 15 + |shown| <= i < CliLines ==> lines[i] == "")
  {
    var upper := UpperBlock(stats, sc, f);
    var logs := LogBlock(sc, f.recent, |upper|);
    UpperLayout(stats, sc, f);
    Assemble(upper, logs);
    var lines := Assembled(stats, sc, f);
    assert lines[..StatsLines] == upper[..StatsLines] by {
      assert lines[..CliLines - 2][..StatsLines] == lines[..StatsLines];
    }
    assert lines[5..13] == upper[5..13] by {
      assert lines[..CliLines - 2][5..13] == lines[5..13];
    }
  }

  lemma UpperLayout(stats: seq<string>, sc: Screen, f: Frame)
    requires |stats| == StatsLines
    ensures var u := UpperBlock(stats, sc, f);
      u[..StatsLines] == stats && u[4] == Separator(sc.width) && u[5..13] == GraphBlock(sc, f.speeds)
      && u[13] == Separator(sc.width) && u[14] == "Recent Logs:"
  {
  }

  /** Fifteen upper lines and at most two log lines, padded to seventeen. */
  lemma Assemble(upper: seq<string>, logs: seq<string>)
    requires |upper| == CliLines - 2 && |logs| <= 2
    ensures var lines := Take(PadTo(upper + logs, CliLines, ""), CliLines);
      |lines| == CliLines && lines[..CliLines - 2] == upper
      && (forall i :: 0 <= i < |logs| ==> lines[15 + i] == logs[i])
      && (forall i :: 15 + |logs| <= i < CliLines ==> lines[i] == "")
  {
    var padded := PadTo(upper + logs, CliLines, "");
    assert padded[..|upper + logs|] == upper + logs;
    assert (upper + logs)[..|upper|] == upper;
    assert padded[..|upper|] == upper;
    forall i | 0 <= i < |logs|
      ensures padded[15 + i] == logs[i]
    {
      assert padded[15 + i] == (upper + logs)[15 + i];
    }
  }

  /** The only error a refresh can raise is the estimator's ZeroDivisionError. */
  lemma DisplayErrors(sc: Screen, f: Frame)
    requires WellFormed(f)
    ensures DisplayLines(sc, f).Err? <==> f.progresses != [] && f.total == Some(0.0) && |f.times| >= 2
  {
  }

  /* ---------------- building and writing the block ---------------- */

  /** The statistics lines, computed the way the source does. */
  method BuildStats(sc: Screen, f: Frame) returns (r: Result<seq<string>, string>)
    requires WellFormed(f)
    ensures r == StatsBlock(sc, f)
  {
    var header := Header(f);
    if f.progresses == [] || f.total.None? {
      return Ok([header, Separator(sc.width), "Waiting for first progress update from log...",
                 "Log: " + Take(LogPathText(sc, f), sc.width)]);
    }
    var est := CalculateEtaAndSpeed(f.times, f.progresses, f.total);
    if est.Err? {
      return Err(est.error);
    }
    var e := est.value;
    var fixed := sc.fixed;
    var progressLine := "Progress: " + fixed(f.progresses[|f.progresses| - 1], 0, 2) + " / "
      + fixed(f.total.value, 0, 2) + " GiB (" + fixed(e.percent, 0, 2) + "%)";
    var speedLine := "Speed:    " + LeftJustify(fixed(e.speedMib, 0, 1) + " MiB/s", 20) + " ETA: " + EtaText(e);
    return Ok([header, Separator(sc.width), progressLine, speedLine]);
  }

  /** Appends `filler` until there are at least `n` lines. */
  method PadLines(lines: seq<string>, n: nat, filler: string) returns (padded: seq<string>)
    ensures padded == PadTo(lines, n, filler)
  {
    padded := lines;
    while |padded| < n
      invariant |lines| <= |padded| && padded[..|lines|] == lines
      invariant |padded| <= n || padded == lines
      invariant forall i :: |lines| <= i < |padded| ==> padded[i] == filler
      decreases n - |padded|
    {
      padded := padded + [filler];
    }
  }

  /** The seventeen lines, built the way the source does. */
  method BuildLines(sc: Screen, f: Frame) returns (r: Result<seq<string>, string>)
    requires WellFormed(f)
    ensures r == DisplayLines(sc, f)
  {
    var stats := BuildStats(sc, f);
    if stats.Err? {
      return Err(stats.error);
    }
    var lines := Take(stats.value, StatsLines) + [Separator(sc.width)];
    var generated := if |f.speeds| > 1 then Take(sc.plot(f.speeds), PlotHeight) else [];
    generated := PadLines(generated, PlotHeight, RestoreRender.Repeat(' ', sc.width));
    lines := lines + Take(generated, PlotHeight) + [Separator(sc.width), "Recent Logs:"];
    var logs := LogBlock(sc, f.recent, |lines|);
    lines := lines + logs;
    lines := PadLines(lines, CliLines, "");
    return Ok(Take(lines, CliLines));
  }

  /** The terminal block of the watcher, which remembers whether it has been drawn once. */
  class CliDisplay {
    var firstPrintDone: bool

    constructor ()
      ensures !firstPrintDone
    {
      firstPrintDone := false;
    }

    /**
     * `update_cli_display`: move up over the previous block if there is one,
     * then clear and write every line. A ZeroDivisionError from the estimator
     * is raised before anything is written.
     */
    method Update(sc: Screen, f: Frame) returns (written: string, raised: Option<string>)
      requires WellFormed(f)
      modifies this
      ensures DisplayLines(sc, f).Err? ==>
        raised == Some(DisplayLines(sc, f).error) && written == "" && firstPrintDone == old(firstPrintDone)
      ensures DisplayLines(sc, f).Ok? ==>
        raised.None? && firstPrintDone
        && written == (if old(firstPrintDone) then RestoreRender.CursorUp(CliLines) else "")
                      + RestoreRender.RenderedLines(DisplayLines(sc, f).value, true)
    {
      var lines := BuildLines(sc, f);
      if lines.Err? {
        return "", Some(lines.error);
      }
      var up := "";
      if firstPrintDone {
        up := RestoreRender.CursorUp(CliLines);
      } else {
        firstPrintDone := true;
      }
      var body := PaintLines(lines.value);
      written := up + body;
      raised := None;
    }
  }

  /** Writes each line after a clear-line sequence, each ended by a newline. */
  method PaintLines(block: seq<string>) returns (written: string)
    ensures written == RestoreRender.RenderedLines(block, true)
  {
    written := "";
    var k := 0;
    while k < |block|
      invariant 0 <= k <= |block|
      invariant written == RestoreRender.RenderedLines(block[..k], true)
    {
      assert block[..k + 1][..k] == block[..k];
      written := written + RestoreRender.ClearLine + block[k] + "\n";
      k := k + 1;
    }
    assert block[..k] == block;
  }
}
