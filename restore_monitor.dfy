/**
 * The restore watcher's status detection and control flow
 * (`detect_terminal_status`, `map_final_status_message`,
 * `collect_monitoring_data`, `monitor_restore_task` and `main` of
 * restore_watcher.py).
 *
 * The followed log is a finite sequence of lines in which `""` stands for a
 * poll that found nothing new; a keyboard interrupt is the position of the
 * line being waited for when it arrives. The monotonic clock is a function
 * from the number of the reading to its value, and the output stream is the
 * text written to it.
 */
module RestoreMonitor {
  import opened Wrappers
  import opened Text
  import opened RestoreTasks
  import opened RestoreLogfile
  import opened RestoreProgress
  import opened RestoreMetrics
  import opened RestoreRender

  const FailureMarkers: seq<string> := ["task error", "failed", "aborted"]
  const SuccessMarkers: seq<string> := ["task ok", "completed", "success"]

  /** `detect_terminal_status`: failure markers win over success markers; case is ignored. */
  function DetectTerminalStatus(line: string): (r: Option<string>)
    ensures r == Some("failure") <==> ContainsAny(LowerStr(line), FailureMarkers)
    ensures r == Some("success")
        <==> !ContainsAny(LowerStr(line), FailureMarkers) && ContainsAny(LowerStr(line), SuccessMarkers)
    ensures r.None? || r == Some("failure") || r == Some("success")
  {
    var lowered := LowerStr(line);
    if ContainsAny(lowered, FailureMarkers) then Some("failure")
    else if ContainsAny(lowered, SuccessMarkers) then Some("success")
    else None
  }

  lemma LowerIdempotent(s: string)
    ensures LowerStr(LowerStr(s)) == LowerStr(s)
  {
  }

  /** Lower-casing a line first does not change its status. */
  lemma DetectIgnoresCase(line: string)
    ensures DetectTerminalStatus(LowerStr(line)) == DetectTerminalStatus(line)
  {
    LowerIdempotent(line);
  }

  predicate NoUpper(s: string) { forall i :: 0 <= i < |s| ==> !('A' <= s[i] <= 'Z') }

  lemma MarkersAreLowerCase()
    ensures forall m :: m in FailureMarkers ==> NoUpper(m)
    ensures forall m :: m in SuccessMarkers ==> NoUpper(m)
  {
  }

  lemma LowerAround(a: string, m: string, b: string)
    requires NoUpper(m)
    ensures OccursAt(LowerStr(a + m + b), m, |a|)
  {
    var l := LowerStr(a + m + b);
    assert l[|a|..|a| + |m|] == m;
  }

  /** A failure marker anywhere in a line, in any case, makes it a failure. */
  lemma FailureMarkerAnywhere(a: string, m: string, b: string)
    requires m in FailureMarkers
    ensures DetectTerminalStatus(a + m + b) == Some("failure")
  {
    MarkersAreLowerCase();
    LowerAround(a, m, b);
  }

  /** A success marker makes a line a success unless a failure marker also occurs. */
  lemma SuccessMarkerAnywhere(a: string, m: string, b: string)
    requires m in SuccessMarkers
    requires !ContainsAny(LowerStr(a + m + b), FailureMarkers)
    ensures DetectTerminalStatus(a + m + b) == Some("success")
  {
    MarkersAreLowerCase();
    LowerAround(a, m, b);
  }

  const KnownStatuses: seq<string> := ["success", "failure", "interrupted", "no-task", "log-missing"]

  const SummaryByStatus: map<string, string> := map[
    "success" := "Final status: success",
    "failure" := "Final status: failure",
    "interrupted" := "Final status: interrupted",
    "no-task" := "Final status: no-task",
    "log-missing" := "Final status: log-missing"]

  const UnknownSummary := "Final status: unknown"

  /** `map_final_status_message`: the five known statuses are named, anything else is unknown. */
  function MapFinalStatusMessage(status: Option<string>): (msg: string)
    ensures status.Some? && status.value in KnownStatuses ==> msg == "Final status: " + status.value
    ensures !(status.Some? && status.value in KnownStatuses) ==> msg == UnknownSummary
  {
    if status.None? then UnknownSummary
    else if status.value in SummaryByStatus then SummaryByStatus[status.value]
    else UnknownSummary
  }

  /* ---------------- collect_monitoring_data ---------------- */

  /** A recogniser of progress lines; the watcher uses `ParseProgressLine`. */
  type LineParser = string -> Option<Point>

  /** Every sample `parse` finds in `lines`, in order, with no ordering check. */
  function ParsedPoints(parse: LineParser, lines: seq<string>): (points: seq<Point>)
    ensures |points| <= |lines|
  {
    if lines == [] then []
    else
      var p := parse(lines[|lines| - 1]);
      ParsedPoints(parse, lines[..|lines| - 1]) + (if p.Some? then [p.value] else [])
  }

  /** The non-empty lines of `lines`, in order. */
  function NonEmptyLines(lines: seq<string>): (r: seq<string>)
    ensures |r| <= |lines|
  {
    if lines == [] then []
    else NonEmptyLines(lines[..|lines| - 1]) + (if lines[|lines| - 1] != "" then [lines[|lines| - 1]] else [])
  }

  /** Appending to the five-line deque: the oldest entry falls out when the deque is full. */
  function Push5(recent: seq<string>, line: string): (r: seq<string>)
    requires |recent| <= 5
    ensures 1 <= |r| <= 5 && r[|r| - 1] == line
  {
    if |recent| == 5 then recent[1..] + [line] else recent + [line]
  }

  /** The last five entries of `xs`. */
  function LastFive(xs: seq<string>): (r: seq<string>)
    ensures |r| <= 5 && |r| <= |xs|
  {
    if |xs| <= 5 then xs else xs[|xs| - 5..]
  }

  /** `LastFive` is the tail of `xs`, five entries long once there are five. */
  lemma LastFiveIsSuffix(xs: seq<string>)
    ensures LastFive(xs) == xs[|xs| - |LastFive(xs)|..]
    ensures |xs| >= 5 ==> |LastFive(xs)| == 5
    ensures |xs| < 5 ==> LastFive(xs) == xs
  {
  }

  /** The deque holds the last five lines pushed into it. */
  lemma Push5LastFive(xs: seq<string>, line: string)
    ensures Push5(LastFive(xs), line) == LastFive(xs + [line])
  {
    var ys := xs + [line];
    if |xs| >= 5 {
      assert LastFive(xs)[1..] + [line] == ys[|ys| - 5..];
    }
  }

  /** The index of the first line with a terminal status. */
  function FirstTerminal(lines: seq<string>): (r: Option<nat>)
    ensures r.Some? ==>
      && r.value < |lines| && DetectTerminalStatus(lines[r.value]).Some?
      && (forall j :: 0 <= j < r.value ==> DetectTerminalStatus(lines[j]).None?)
    ensures r.None? ==> forall j :: 0 <= j < |lines| ==> DetectTerminalStatus(lines[j]).None?
  {
    if lines == [] then None
    else if DetectTerminalStatus(lines[0]).Some? then Some(0)
    else
      var r := FirstTerminal(lines[1..]);
      if r.None? then None else Some(r.value + 1)
  }

  /** What `collect_monitoring_data` returns: the samples read and why it stopped. */
  datatype Outcome = Outcome(points: seq<Point>, status: Option<string>)

  /**
   * The lines are read up to the first terminal one (its sample included),
   * unless the interrupt arrives first; a stream that ends gives no status.
   */
  function CollectOutcome(lines: seq<string>, interruptAt: Option<nat>): (o: Outcome)
    ensures o.status.None? || o.status.value in KnownStatuses
  {
    var f := FirstTerminal(lines);
    if f.Some? && (interruptAt.None? || f.value < interruptAt.value) then
      Outcome(ParsedPoints(ParseProgressLine, lines[..f.value + 1]), DetectTerminalStatus(lines[f.value]))
    else if interruptAt.Some? && interruptAt.value <= |lines| then
      Outcome(ParsedPoints(ParseProgressLine, lines[..interruptAt.value]), Some("interrupted"))
    else Outcome(ParsedPoints(ParseProgressLine, lines), None)
  }

  /** Every way monitoring ends has its own summary, except a log that simply ends. */
  lemma OutcomeSummaries(lines: seq<string>, interruptAt: Option<nat>)
    ensures var o := CollectOutcome(lines, interruptAt);
      (MapFinalStatusMessage(o.status) == UnknownSummary <==> o.status.None?)
  {
  }

  /** The console a dashboard is drawn on. */
  datatype Console = Console(isTty: bool, fixed: Formatter)

  /** Draw the dashboard once; returns the text written and the new line count. */
  method Repaint(console: Console, points: seq<Point>, speed: real, eta: Eta, recent: seq<string>,
                 waiting: bool, previousLineCount: int)
    returns (written: string, count: nat)
    ensures count == 1 + |LastLogs(recent)|
    ensures written == (if console.isTty && previousLineCount > 0 then CursorUp(previousLineCount) else "")
      + ((if console.isTty then ClearLine else "")
         + BuildTqdmLine(points, speed, TotalAverageSpeed(points), eta, waiting, console.fixed) + "\n"
         + RenderedLines(ShownLogs(LastLogs(recent)), console.isTty))
  {
    var lines := BuildDashboardLines(points, speed, TotalAverageSpeed(points), eta, recent, waiting, console.fixed);
    written, count := RenderDashboard(lines, previousLineCount, console.isTty);
    RenderedDashboard(lines[0], ShownLogs(LastLogs(recent)), console.isTty);
  }

  /** The local variables `collect_monitoring_data` keeps between lines. */
  datatype Watch = Watch(
    points: seq<Point>,
    recent: seq<string>,        // the `deque(maxlen=5)` of recent non-empty lines
    lastSeenLine: string,
    lastSpeed: real,
    lastEta: Eta,
    previousLineCount: int,
    lastOutputTime: real,
    readings: nat,              // how many times the clock has been read
    written: string)            // the text written to the console so far

  predicate Consistent(w: Watch)
  {
    |w.recent| <= 5 && (w.lastSeenLine != "" ==> w.recent != [])
  }

  /**
   * One pass of the loop body of `collect_monitoring_data` over `line`,
   * up to (not including) the terminal-status check.
   */
  method ReadLine(w: Watch, line: string, parse: LineParser, output: Option<Console>, updateInterval: real, clock: nat -> real)
    returns (next: Watch)
    requires Consistent(w)
    ensures Consistent(next)
    ensures next.points == w.points
      + (if parse(line).Some? then [parse(line).value] else [])
    ensures next.recent == if line != "" then Push5(w.recent, line) else w.recent
    ensures output.None? ==> next.written == w.written
  {
    next := w;
    if line != "" {
      next := next.(lastSeenLine := line, recent := Push5(next.recent, line));
    }
    var progress := parse(line);
    if progress.Some? {
      var points := next.points + [progress.value];
      var speed, eta := EstimateWithMemory(points, next.lastSpeed);
      next := next.(points := points, lastSpeed := speed, lastEta := eta);
      if output.Some? {
        var text, count := Repaint(output.value, next.points, next.lastSpeed, next.lastEta, next.recent, false,
                                   next.previousLineCount);
        next := next.(written := next.written + text, previousLineCount := count);
      }
      next := next.(lastOutputTime := clock(next.readings), readings := next.readings + 1);
    }
    var currentTime := clock(next.readings);
    next := next.(readings := next.readings + 1);
    if output.Some? && currentTime - next.lastOutputTime >= updateInterval {
      if next.recent == [] && next.lastSeenLine != "" {
        // the deque is empty here, so appending cannot evict anything
        next := next.(recent := next.recent + [next.lastSeenLine]);
      }
      var text, count := Repaint(output.value, next.points, next.lastSpeed, next.lastEta, next.recent, true,
                                 next.previousLineCount);
      next := next.(written := next.written + text, previousLineCount := count, lastOutputTime := currentTime);
    }
  }

  lemma ParsedPointsStep(parse: LineParser, lines: seq<string>, k: nat)
    requires k < |lines|
    ensures ParsedPoints(parse, lines[..k + 1]) == ParsedPoints(parse, lines[..k])
      + (if parse(lines[k]).Some? then [parse(lines[k]).value] else [])
  {
    assert lines[..k + 1][..k] == lines[..k];
  }

  lemma NonEmptyLinesStep(lines: seq<string>, k: nat)
    requires k < |lines|
    ensures NonEmptyLines(lines[..k + 1]) == NonEmptyLines(lines[..k]) + (if lines[k] != "" then [lines[k]] else [])
  {
    assert lines[..k + 1][..k] == lines[..k];
  }

  /** No line before `k` has a terminal status. */
  predicate NoTerminalBefore(lines: seq<string>, k: nat)
  {
    FirstTerminal(lines).None? || FirstTerminal(lines).value >= k
  }

  lemma NoTerminalStep(lines: seq<string>, k: nat)
    requires k < |lines| && NoTerminalBefore(lines, k) && DetectTerminalStatus(lines[k]).None?
    ensures NoTerminalBefore(lines, k + 1)
  {
  }

  lemma OutcomeAtTerminal(lines: seq<string>, k: nat, interruptAt: Option<nat>)
    requires k < |lines| && DetectTerminalStatus(lines[k]).Some?
    requires NoTerminalBefore(lines, k)
    requires interruptAt.None? || k < interruptAt.value
    ensures CollectOutcome(lines, interruptAt) == Outcome(ParsedPoints(ParseProgressLine, lines[..k + 1]), DetectTerminalStatus(lines[k]))
  {
    assert FirstTerminal(lines) == Some(k);
  }

  lemma OutcomeAtInterrupt(lines: seq<string>, k: nat)
    requires k <= |lines| && NoTerminalBefore(lines, k)
    ensures CollectOutcome(lines, Some(k)) == Outcome(ParsedPoints(ParseProgressLine, lines[..k]), Some("interrupted"))
  {
  }

  lemma OutcomeAtEnd(lines: seq<string>, interruptAt: Option<nat>)
    requires NoTerminalBefore(lines, |lines|)
    requires interruptAt.None? || interruptAt.value > |lines|
    ensures CollectOutcome(lines, interruptAt) == Outcome(ParsedPoints(ParseProgressLine, lines), None)
  {
  }

  /** `ReadLine` on `lines[k]`, stated against the whole stream read so far. */
  method ReadNextLine(w: Watch, lines: seq<string>, k: nat, parse: LineParser, output: Option<Console>, updateInterval: real,
                      clock: nat -> real)
    returns (next: Watch, terminal: Option<string>)
    requires k < |lines| && Consistent(w)
    requires w.points == ParsedPoints(parse, lines[..k])
    requires w.recent == LastFive(NonEmptyLines(lines[..k]))
    ensures Consistent(next)
    ensures next.points == ParsedPoints(parse, lines[..k + 1])
    ensures next.recent == LastFive(NonEmptyLines(lines[..k + 1]))
    ensures terminal == DetectTerminalStatus(lines[k])
    ensures output.None? ==> next.written == w.written
  {
    var line := lines[k];
    ParsedPointsStep(parse, lines, k);
    NonEmptyLinesStep(lines, k);
    if line != "" {
      Push5LastFive(NonEmptyLines(lines[..k]), line);
    }
    next := ReadLine(w, line, parse, output, updateInterval, clock);
    terminal := DetectTerminalStatus(line);
  }

  /**
   * The loop of `collect_monitoring_data`: reads lines until one has a
   * terminal status, the interrupt arrives at line `k`, or the stream ends.
   */
  method FollowLines(lines: seq<string>, interruptAt: Option<nat>, parse: LineParser, output: Option<Console>,
                     updateInterval: real, clock: nat -> real)
    returns (w: Watch, k: nat, terminal: Option<string>)
    ensures k <= |lines| && NoTerminalBefore(lines, k)
    ensures terminal.Some? ==>
      && k < |lines| && terminal == DetectTerminalStatus(lines[k])
      && (interruptAt.None? || k < interruptAt.value)
      && w.points == ParsedPoints(parse, lines[..k + 1])
    ensures terminal.None? ==>
      && w.points == ParsedPoints(parse, lines[..k])
      && ((interruptAt.Some? && interruptAt.value == k)
          || (k == |lines| && (interruptAt.None? || interruptAt.value > k)))
    ensures output.None? ==> w.written == ""
  {
    w := Watch([], [], "", 0.0, Infinite, 0, clock(0), 1, "");
    k := 0;
    while k < |lines|
      invariant 0 <= k <= |lines|
      invariant Consistent(w)
      invariant w.points == ParsedPoints(parse, lines[..k])
      invariant w.recent == LastFive(NonEmptyLines(lines[..k]))
      invariant NoTerminalBefore(lines, k)
      invariant interruptAt.None? || k <= interruptAt.value
      invariant output.None? ==> w.written == ""
    {
      if interruptAt.Some? && interruptAt.value == k {
        return w, k, None;
      }
      w, terminal := ReadNextLine(w, lines, k, parse, output, updateInterval, clock);
      if terminal.Some? {
        return;
      }
      NoTerminalStep(lines, k);
      k := k + 1;
    }
    terminal := None;
  }

  /**
   * `collect_monitoring_data`. `output` is the console when there is one;
   * `clock(n)` is the n-th reading of the monotonic clock. Returns the samples,
   * the status and the text written to the console.
   */
  method CollectMonitoringData(lines: seq<string>, interruptAt: Option<nat>, output: Option<Console>,
                               updateInterval: real, clock: nat -> real)
    returns (points: seq<Point>, status: Option<string>, written: string)
    ensures Outcome(points, status) == CollectOutcome(lines, interruptAt)
    ensures output.None? ==> written == ""
  {
    var w, k, terminal := FollowLines(lines, interruptAt, ParseProgressLine, output, updateInterval, clock);
    points, status, written := w.points, terminal, w.written;
    if terminal.Some? {
      OutcomeAtTerminal(lines, k, interruptAt);
    } else if interruptAt.Some? && interruptAt.value == k {
      OutcomeAtInterrupt(lines, k);
      status := Some("interrupted");
    } else {
      assert lines[..k] == lines;
      OutcomeAtEnd(lines, interruptAt);
    }
  }

  /* ---------------- monitor_restore_task and main ---------------- */

  /** What `monitor_restore_task` returns for a task whose log is `lines`. */
  function MonitorOutcome(fs: set<string>, root: string, task: Task, lines: seq<string>,
                          interruptAt: Option<nat>): Outcome
  {
    if ResolvedLogfile(fs, root, task).None? then Outcome([], Some("log-missing"))
    else CollectOutcome(lines, interruptAt)
  }

  /** `monitor_restore_task`: a task whose log cannot be found is reported as "log-missing". */
  method MonitorRestoreTask(fs: set<string>, root: string, task: Task, lines: seq<string>, interruptAt: Option<nat>,
                            output: Option<Console>, updateInterval: real, clock: nat -> real)
    returns (points: seq<Point>, status: Option<string>, written: string)
    ensures Outcome(points, status) == MonitorOutcome(fs, root, task, lines, interruptAt)
    ensures output.None? ==> written == ""
  {
    var logfile := ResolveRestoreLogfile(fs, root, task);
    if logfile.None? {
      return [], Some("log-missing"), "";
    }
    points, status, written := CollectMonitoringData(lines, interruptAt, output, updateInterval, clock);
  }

  /** The restore task `main` picks from the active-task index, if any. */
  function SelectedTask(activeFile: Option<seq<string>>): Result<Option<Task>, TaskError>
  {
    if activeFile.None? then Ok(None)
    else
      match ActiveTasks(activeFile.value)
      case Err(e) => Err(e)
      case Ok(tasks) => Ok(ChooseRestoreTask(RestoreLike(tasks)))
  }

  /**
   * The status `main` reports: none when reading the index raises,
   * "no-task", "log-missing", or what monitoring returned.
   */
  function MainStatus(activeFile: Option<seq<string>>, fs: set<string>, root: string, lines: seq<string>,
                      interruptAt: Option<nat>): Option<string>
  {
    match SelectedTask(activeFile)
    case Err(_) => None
    case Ok(None) => Some("no-task")
    case Ok(Some(t)) => MonitorOutcome(fs, root, t, lines, interruptAt).status
  }

  /** The summary is "unknown" exactly when the index cannot be read or the log ends without a verdict. */
  lemma MainSummaryUnknown(activeFile: Option<seq<string>>, fs: set<string>, root: string, lines: seq<string>,
                           interruptAt: Option<nat>)
    ensures MapFinalStatusMessage(MainStatus(activeFile, fs, root, lines, interruptAt)) == UnknownSummary
      <==> || SelectedTask(activeFile).Err?
           || (&& SelectedTask(activeFile).Ok? && SelectedTask(activeFile).value.Some?
               && ResolvedLogfile(fs, root, SelectedTask(activeFile).value.value).Some?
               && CollectOutcome(lines, interruptAt).status.None?)
  {
    var status := MainStatus(activeFile, fs, root, lines, interruptAt);
    if SelectedTask(activeFile).Ok? && SelectedTask(activeFile).value.Some? {
      OutcomeSummaries(lines, interruptAt);
    }
  }

  /**
   * `main` with the active-task index `activeFile` (None when it does not
   * exist), the file system `fs` under `root` and the selected task's log
   * `lines`. Returns everything written to standard output and the error
   * `read_active_tasks` raised, if it did.
   */
  method RunMain(activeFile: Option<seq<string>>, fs: set<string>, root: string, lines: seq<string>,
                 interruptAt: Option<nat>, console: Console, updateInterval: real, clock: nat -> real)
    returns (stdout: string, raised: Option<TaskError>)
    ensures raised.Some? <==> SelectedTask(activeFile).Err?
    ensures EndsWith(stdout, MapFinalStatusMessage(MainStatus(activeFile, fs, root, lines, interruptAt)) + "\n")
    ensures SelectedTask(activeFile).Ok? && SelectedTask(activeFile).value.Some? ==>
      var t := SelectedTask(activeFile).value.value;
      StartsWith(stdout, "Monitoring restore task: action=" + t.action + " upid=" + t.upid + "\n")
  {
    var finalStatus: Option<string> := None;
    var before, heading := "", "";
    raised := None;
    var active := ReadActiveTasks(activeFile);
    if active.Err? {
      raised := Some(active.error);
    } else {
      var restoreTasks := FilterRestoreTasks(active.value);
      var selected := ChooseRestoreTask(restoreTasks);
      if selected.None? {
        finalStatus := Some("no-task");
      } else {
        var t := selected.value;
        heading := "Monitoring restore task: action=" + t.action + " upid=" + t.upid + "\n";
        var rest := "";
        var logfile := ResolveRestoreLogfile(fs, root, t);
        if logfile.None? {
          finalStatus := Some("log-missing");
        } else {
          var points, written;
          points, finalStatus, written := MonitorRestoreTask(fs, root, t, lines, interruptAt, Some(console),
                                                              updateInterval, clock);
          rest := "Log file: " + logfile.value + "\n" + written;
        }
        before := heading + rest;
        AppendEnds(heading, rest);
      }
    }
    assert finalStatus == MainStatus(activeFile, fs, root, lines, interruptAt);
    // the `finally` clause
    var summary := MapFinalStatusMessage(finalStatus) + "\n";
    stdout := before + summary;
    AppendEnds(before, summary);
    StartsWithTrans(stdout, before, heading);
  }
}
