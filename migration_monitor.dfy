// The migration watcher's `main` (proxmox/migration-watcher/watcher.py):
// pick an ongoing qmigrate task, find its log, follow the log in batches of
// five lines, keep the samples, the speed history and the last log lines,
// and print a summary whatever way monitoring ends.
//
// The followed log is a sequence of reads: `Some("")` is a poll that found
// nothing new, `None` is the sentinel `follow_log` yields when the file
// cannot be read, and the end of the sequence is the generator running out
// (StopIteration). `interruptAt == Some(k)` is Ctrl+C while waiting for the
// k-th read.

module MigrationMonitor {
  import opened Wrappers
  import opened Text
  import opened MigrationTasks
  import opened MigrationProgress
  import opened MigrationMetrics
  import opened MigrationDisplay
  import RestoreRender

  const SuccessMarkers := ["TASK OK", "migration status: completed", "migration finished successfully"]
  const FailureMarkers := ["TASK ERROR", "migration status: failed", "migration aborted"]
  const TaskError := "TASK ERROR"
  const CompletedStatus := "Completed (TASK OK in log)"
  const NoMessage := "failure in log"

  /** The variables of the monitoring loop. */
  datatype Watch = Watch(times: seq<int>, progresses: seq<real>, total: Option<real>,
                         speeds: seq<real>, recent: seq<string>, status: string)

  /** The state after one log line, and whether that line ended the migration. */
  datatype Step = Step(watch: Watch, ended: bool)

  const Start := Watch([], [], None, [], [], "Initializing...")

  /**
   * What the loop keeps true: parallel sample lists whose times strictly
   * increase, bounded queues, and no zero total once there are two samples
   * (the estimator would have raised).
   */
  predicate Valid(w: Watch, width: nat)
  {
    && |w.times| == |w.progresses|
    && StrictlyIncreasing(w.times)
    && |w.recent| <= RecentLogHistory
    && |w.speeds| <= width
    && !(|w.times| >= 2 && w.total == Some(0.0))
  }

  /** Appending `x` to a bounded deque of capacity `n` holding `xs`: the oldest entry falls out when it is full. */
  function Push<T>(xs: seq<T>, x: T, n: nat): (r: seq<T>)
    requires |xs| <= n
    ensures |r| <= n
    ensures n > 0 ==> r == LastN(xs + [x], n)
    ensures n == 0 ==> r == []
  {
    if n == 0 then []
    else if |xs| < n then xs + [x]
    else xs[1..] + [x]
  }

  lemma IncreasingSnoc(ts: seq<int>, t: int)
    requires StrictlyIncreasing(ts) && (ts == [] || ts[|ts| - 1] < t)
    ensures StrictlyIncreasing(ts + [t])
  {
  }

  /** The index of the first occurrence of `p` in `s` at or after `i`. */
  function FirstOccurrence(s: string, p: string, i: nat): (r: Option<nat>)
    requires i <= |s|
    ensures r.Some? ==> i <= r.value && r.value + |p| <= |s| && OccursAt(s, p, r.value)
    ensures r.Some? ==> forall j :: i <= j < r.value ==> !OccursAt(s, p, j)
    ensures r.None? ==> forall j :: i <= j ==> !OccursAt(s, p, j)
    decreases |s| - i
  {
    if i + |p| > |s| then None
    else if s[i..i + |p|] == p then Some(i)
    else FirstOccurrence(s, p, i + 1)
  }

  /**
   * The status a line ends the migration with, given the success markers, the
   * failure markers and the marker whose tail is quoted: the success markers
   * are checked first, then the failure markers.
   */
  function VerdictOf(line: string, success: seq<string>, failure: seq<string>, quoted: string): Option<string>
  {
    if ContainsAny(line, success) then Some(CompletedStatus)
    else if ContainsAny(line, failure) then
      var message := match FirstOccurrence(line, quoted, 0)
        case Some(k) => Strip(line[k + |quoted|..])
        case None => NoMessage;
      Some("Failed (" + message + ")")
    else None
  }

  /** The verdict of the watcher's markers. */
  function Verdict(line: string): Option<string>
  {
    VerdictOf(line, SuccessMarkers, FailureMarkers, TaskError)
  }

  /**
   * A line that ends nothing: read a sample from it. A sample counts only
   * when no time was recorded yet or its time is later than the last one.
   * `Err` is the exception text, "ValueError - ..." or "ZeroDivisionError - ...".
   */
  function Sample(w: Watch, line: string, width: nat): (r: Result<Watch, string>)
    requires Valid(w, width)
    ensures r.Ok? ==> Valid(r.value, width) && r.value.recent == w.recent
  {
    SampleOf(w, ParseProgressLine(line), width)
  }

  /** `Sample` once the line is parsed. */
  function SampleOf(w: Watch, parsed: Result<Option<Progress>, string>, width: nat): (r: Result<Watch, string>)
    requires Valid(w, width)
    ensures r.Ok? ==> Valid(r.value, width) && r.value.recent == w.recent
  {
    match parsed
    case Err(e) => Err("ValueError - " + e)
    case Ok(None) => Ok(w)
    case Ok(Some(p)) =>
      if w.times != [] && p.elapsed <= w.times[|w.times| - 1] then Ok(w)
      else
        IncreasingSnoc(w.times, p.elapsed);
        var times := w.times + [p.elapsed];
        var progresses := w.progresses + [p.transferred];
        match EtaAndSpeed(times, progresses, Some(p.total))
        case Err(e) => Err("ZeroDivisionError - " + e)
        case Ok(est) =>
          var speeds := if |times| >= 2 then Push(w.speeds, est.speedMib, width) else w.speeds;
          Ok(Watch(times, progresses, Some(p.total), speeds, w.recent, "Monitoring..."))
  }

  /** One non-empty log line: queue it, then look for a verdict, then for a sample. */
  function Absorb(w: Watch, line: string, width: nat): (r: Result<Step, string>)
    requires Valid(w, width)
    ensures r.Ok? ==> Valid(r.value.watch, width)
  {
    var queued := w.(recent := Push(w.recent, line, RecentLogHistory));
    match Verdict(line)
    case Some(status) => Ok(Step(queued.(status := status), true))
    case None =>
      match Sample(queued, line, width)
      case Err(e) => Err(e)
      case Ok(next) => Ok(Step(next, false))
  }

  /**
   * The loop from the k-th read on: the final state and the final status
   * message. Batching the reads by five changes only when the display is
   * refreshed, not what is read.
   */
  function Follow(w: Watch, lines: seq<Option<string>>, k: nat, interruptAt: Option<nat>, width: nat)
    : (r: (Watch, string))
    requires k <= |lines| && Valid(w, width)
    ensures Valid(r.0, width)
    decreases |lines| - k
  {
    if interruptAt == Some(k) then (w, "Interrupted by user")
    else if k == |lines| then (w, "Log stream ended")
    else
      match lines[k]
      case None => (w.(status := "Log Unavailable"), "Log Unavailable")
      case Some(line) =>
        if line == "" then Follow(w, lines, k + 1, interruptAt, width)
        else
          match Absorb(w, line, width)
          case Err(e) => (w, "An error occurred: " + e)
          case Ok(s) =>
            if s.ended then (s.watch, s.watch.status)
            else Follow(s.watch, lines, k + 1, interruptAt, width)
  }

  /** One read of the loop, case by case. */
  lemma FollowAt(w: Watch, lines: seq<Option<string>>, k: nat, interruptAt: Option<nat>, width: nat)
    requires k < |lines| && Valid(w, width) && interruptAt != Some(k)
    ensures lines[k].None? ==> Follow(w, lines, k, interruptAt, width) == (w.(status := "Log Unavailable"), "Log Unavailable")
    ensures lines[k] == Some("") ==> Follow(w, lines, k, interruptAt, width) == Follow(w, lines, k + 1, interruptAt, width)
    ensures lines[k].Some? && lines[k].value != "" ==>
      var r := Absorb(w, lines[k].value, width);
      Follow(w, lines, k, interruptAt, width)
        == if r.Err? then (w, "An error occurred: " + r.error)
           else if r.value.ended then (r.value.watch, r.value.watch.status)
           else Follow(r.value.watch, lines, k + 1, interruptAt, width)
  {
  }

  /* ---------------- properties of one line ---------------- */

  /** A line has a verdict exactly when it holds a marker, and a success marker wins over a failure marker. */
  lemma VerdictMarkers(line: string, success: seq<string>, failure: seq<string>, quoted: string)
    ensures VerdictOf(line, success, failure, quoted).Some? <==>
      exists m :: (m in success || m in failure) && Contains(line, m)
    ensures VerdictOf(line, success, failure, quoted) == Some(CompletedStatus) <==>
      exists m :: m in success && Contains(line, m)
  {
    var v := VerdictOf(line, success, failure, quoted);
    if v.Some? && !ContainsAny(line, success) {
      assert v.value[0] == 'F' != CompletedStatus[0];
    }
  }

  /** The failure status quotes what follows the first occurrence of the quoted marker, stripped. */
  lemma FailureQuotesError(line: string, success: seq<string>, failure: seq<string>, quoted: string, k: nat)
    requires !ContainsAny(line, success) && quoted in failure
    requires k + |quoted| <= |line| && OccursAt(line, quoted, k)
    requires forall j :: 0 <= j < k ==> !OccursAt(line, quoted, j)
    ensures VerdictOf(line, success, failure, quoted) == Some("Failed (" + Strip(line[k + |quoted|..]) + ")")
  {
    assert Contains(line, quoted);
    assert FirstOccurrence(line, quoted, 0) == Some(k);
  }

  /** Without the quoted marker, a failure marker gives "Failed (failure in log)". */
  lemma FailureWithoutMessage(line: string, success: seq<string>, failure: seq<string>, quoted: string)
    requires !ContainsAny(line, success) && ContainsAny(line, failure)
    requires !Contains(line, quoted)
    ensures VerdictOf(line, success, failure, quoted) == Some("Failed (" + NoMessage + ")")
  {
  }

  /**
   * Every non-empty line is queued as the newest recent log line; a line
   * with a verdict ends the migration with that status and reads no sample.
   */
  lemma LineIsQueued(w: Watch, line: string, width: nat)
    requires Valid(w, width) && Absorb(w, line, width).Ok?
    ensures var r := Absorb(w, line, width).value;
      && r.watch.recent == LastN(w.recent + [line], RecentLogHistory)
      && (r.ended <==> Verdict(line).Some?)
      && (r.ended ==> r.watch == w.(recent := r.watch.recent, status := Verdict(line).value))
  {
  }

  /** A sample whose time is not later than the last one changes nothing. */
  lemma StaleSampleIgnored(w: Watch, line: string, width: nat, p: Progress)
    requires Valid(w, width)
    requires ParseProgressLine(line) == Ok(Some(p))
    requires w.times != [] && p.elapsed <= w.times[|w.times| - 1]
    ensures Sample(w, line, width) == Ok(w)
  {
  }

  /**
   * A later sample is recorded with its total, the status becomes
   * "Monitoring...", and the speed history grows only from the second
   * sample on, by the estimator's current speed.
   */
  lemma FreshSampleRecorded(w: Watch, line: string, width: nat, p: Progress)
    requires Valid(w, width)
    requires ParseProgressLine(line) == Ok(Some(p))
    requires w.times == [] || p.elapsed > w.times[|w.times| - 1]
    ensures var times := w.times + [p.elapsed];
      var progresses := w.progresses + [p.transferred];
      var est := EtaAndSpeed(times, progresses, Some(p.total));
      var r := Sample(w, line, width);
      && (r.Err? <==> est.Err?)
      && (r.Ok? ==>
            && r.value.times == times && r.value.progresses == progresses
            && r.value.total == Some(p.total) && r.value.status == "Monitoring..."
            && r.value.speeds == (if |times| >= 2 then Push(w.speeds, est.value.speedMib, width) else w.speeds))
  {
  }

  /** A line without a progress report leaves the samples alone; one that does not parse raises. */
  lemma NoSampleNoChange(w: Watch, line: string, width: nat)
    requires Valid(w, width)
    ensures ParseProgressLine(line) == Ok(None) ==> Sample(w, line, width) == Ok(w)
    ensures ParseProgressLine(line).Err? ==>
      Sample(w, line, width) == Err("ValueError - " + ParseProgressLine(line).error)
  {
  }

  /* ---------------- properties of the loop ---------------- */

  /** The run ends for good at a terminal line: what follows the read lines is never looked at. */
  lemma {:induction false} FollowIgnoresRest(w: Watch, lines: seq<Option<string>>, more: seq<Option<string>>,
                                             k: nat, interruptAt: Option<nat>, width: nat)
    requires k <= |lines| && Valid(w, width)
    requires Follow(w, lines, k, interruptAt, width).1 != "Log stream ended"
    ensures Follow(w, lines + more, k, interruptAt, width) == Follow(w, lines, k, interruptAt, width)
    decreases |lines| - k
  {
    var all := lines + more;
    if interruptAt == Some(k) || k == |lines| {
    } else {
      assert all[k] == lines[k];
      if lines[k].Some? {
        var line := lines[k].value;
        if line == "" {
          FollowIgnoresRest(w, lines, more, k + 1, interruptAt, width);
        } else if Absorb(w, line, width).Ok? && !Absorb(w, line, width).value.ended {
          FollowIgnoresRest(Absorb(w, line, width).value.watch, lines, more, k + 1, interruptAt, width);
        }
      }
    }
  }

  /** Accepted sample times strictly increase across the whole run. */
  lemma TimesIncrease(lines: seq<Option<string>>, interruptAt: Option<nat>, width: nat)
    ensures var w := Follow(Start, lines, 0, interruptAt, width).0;
      StrictlyIncreasing(w.times) && |w.times| == |w.progresses|
  {
  }

  /* ---------------- the loop, imperatively ---------------- */

  function FrameOf(task: MigrationTask, w: Watch): Frame
  {
    Frame(task, w.times, w.progresses, w.total, w.speeds, w.recent, w.status)
  }

  /** The display never raises here: the loop already refused a zero total. */
  lemma DisplaySucceeds(sc: Screen, task: MigrationTask, w: Watch)
    requires Valid(w, sc.width) && |Split(task.upid, ':')| >= 2
    ensures DisplayLines(sc, FrameOf(task, w)).Ok?
  {
    DisplayErrors(sc, FrameOf(task, w));
  }

  /** The two marker tests of the loop body. */
  method CheckMarkers(line: string) returns (verdict: Option<string>)
    ensures verdict == Verdict(line)
  {
    if ContainsAny(line, SuccessMarkers) {
      return Some(CompletedStatus);
    }
    if ContainsAny(line, FailureMarkers) {
      var errMsg := NoMessage;
      var k := FirstOccurrence(line, TaskError, 0);
      if k.Some? {
        errMsg := Strip(line[k.value + |TaskError|..]);
      }
      return Some("Failed (" + errMsg + ")");
    }
    return None;
  }

  /** The body of the inner `for` loop for one non-empty line. */
  method HandleLine(w: Watch, line: string, width: nat) returns (r: Result<Step, string>)
    requires Valid(w, width)
    ensures r == Absorb(w, line, width)
  {
    var recent := Push(w.recent, line, RecentLogHistory);
    var queued := w.(recent := recent);
    var verdict := CheckMarkers(line);
    if verdict.Some? {
      return Ok(Step(queued.(status := verdict.value), true));
    }
    var progressData := ParseProgressLine(line);
    if progressData.Err? {
      return Err("ValueError - " + progressData.error);
    }
    if progressData.value.None? {
      return Ok(Step(queued, false));
    }
    var p := progressData.value.value;
    if w.times != [] && p.elapsed <= w.times[|w.times| - 1] {
      return Ok(Step(queued, false));
    }
    var times := w.times + [p.elapsed];
    var progresses := w.progresses + [p.transferred];
    var est := CalculateEtaAndSpeed(times, progresses, Some(p.total));
    if est.Err? {
      return Err("ZeroDivisionError - " + est.error);
    }
    var speeds := w.speeds;
    if |times| >= 2 {
      speeds := Push(speeds, est.value.speedMib, width);
    }
    return Ok(Step(Watch(times, progresses, Some(p.total), speeds, recent, "Monitoring..."), false));
  }

  /** How a batch of reads ended: all read (`ended` when a line ended the migration), or the run stopped. */
  datatype BatchEnd = Drained(ended: bool) | Stopped(final: string)

  /**
   * One read of the inner loop: `None` when the loop goes on to the next
   * read, otherwise how the batch ends.
   */
  method ReadOne(w0: Watch, k0: nat, lines: seq<Option<string>>, interruptAt: Option<nat>, width: nat)
    returns (w: Watch, k: nat, e: Option<BatchEnd>)
    requires k0 <= |lines| && Valid(w0, width)
    ensures k <= |lines| && Valid(w, width) && e != Some(Drained(false))
    ensures e.None? ==> k == k0 + 1 && Follow(w, lines, k, interruptAt, width) == Follow(w0, lines, k0, interruptAt, width)
    ensures e.Some? && e.value.Stopped? ==> Follow(w0, lines, k0, interruptAt, width) == (w, e.value.final)
    ensures e == Some(Drained(true)) ==> Follow(w0, lines, k0, interruptAt, width) == (w, w.status)
  {
    w, k := w0, k0;
    if interruptAt == Some(k) {
      return w, k, Some(Stopped("Interrupted by user"));
    }
    if k == |lines| {
      return w, k, Some(Stopped("Log stream ended"));
    }
    var logLine := lines[k];
    FollowAt(w, lines, k, interruptAt, width);
    k := k + 1;
    if logLine.None? {
      w := w.(status := "Log Unavailable");
      return w, k, Some(Drained(true));
    }
    if logLine.value != "" {
      var r := HandleLine(w, logLine.value, width);
      if r.Err? {
        return w, k, Some(Stopped("An error occurred: " + r.error));
      }
      w := r.value.watch;
      if r.value.ended {
        return w, k, Some(Drained(true));
      }
    }
    e := None;
  }

  /** The inner loop: up to five reads, stopping at a verdict or an exception. */
  method ReadBatch(w0: Watch, k0: nat, lines: seq<Option<string>>, interruptAt: Option<nat>, width: nat)
    returns (w: Watch, k: nat, e: BatchEnd)
    requires k0 <= |lines| && Valid(w0, width)
    ensures k <= |lines| && Valid(w, width)
    ensures e.Stopped? ==> Follow(w0, lines, k0, interruptAt, width) == (w, e.final)
    ensures e == Drained(false) ==> k > k0 && Follow(w, lines, k, interruptAt, width) == Follow(w0, lines, k0, interruptAt, width)
    ensures e == Drained(true) ==> Follow(w0, lines, k0, interruptAt, width) == (w, w.status)
  {
    w, k := w0, k0;
    var b := 0;
    while b < 5
      invariant k0 <= k <= |lines| && Valid(w, width)
      invariant b > 0 ==> k > k0
      invariant Follow(w, lines, k, interruptAt, width) == Follow(w0, lines, k0, interruptAt, width)
      decreases 5 - b
    {
      var w', k', stop := ReadOne(w, k, lines, interruptAt, width);
      if stop.Some? {
        return w', k', stop.value;
      }
      w, k := w', k';
      b := b + 1;
    }
    e := Drained(false);
  }

  /**
   * The `try` block of `main`: draw once, then read up to five lines at a
   * time and redraw after each batch. Returns the final state, the final
   * status message, whether the block was drawn, and what was written.
   */
  method MonitorLog(sc: Screen, task: MigrationTask, lines: seq<Option<string>>, interruptAt: Option<nat>)
    returns (w: Watch, final: string, painted: bool, out: string)
    requires |Split(task.upid, ':')| >= 2
    ensures (w, final) == Follow(Start, lines, 0, interruptAt, sc.width)
    ensures painted
  {
    var display := new CliDisplay();
    w := Start;
    DisplaySucceeds(sc, task, w);
    var written, raised := display.Update(sc, FrameOf(task, w));
    painted := display.firstPrintDone;
    out := written;
    var k := 0;
    while true
      invariant k <= |lines| && Valid(w, sc.width)
      invariant Follow(w, lines, k, interruptAt, sc.width) == Follow(Start, lines, 0, interruptAt, sc.width)
      decreases |lines| - k
    {
      var e;
      w, k, e := ReadBatch(w, k, lines, interruptAt, sc.width);
      if e.Stopped? {
        return w, e.final, painted, out;
      }
      DisplaySucceeds(sc, task, w);
      written, raised := display.Update(sc, FrameOf(task, w));
      out := out + written;
      if e.ended {
        return w, w.status, painted, out;
      }
    }
  }

  /* ---------------- main ---------------- */

  /** How `main` picks a task: the only one, or the user's 1-based choice. */
  datatype Selection = NoTasks | Invalid | Picked(task: MigrationTask)

  /** The ongoing qmigrate tasks of the active index (`None`: the index file does not exist). */
  function Candidates(activeFile: Option<seq<string>>): (r: seq<MigrationTask>)
    ensures forall t :: t in r ==> StartsWith(t.upid, "UPID:") && IsOngoingMigration(t)
    ensures forall t :: t in r ==> |Split(t.upid, ':')| >= 2
  {
    var tasks := if activeFile.None? then [] else IndexTasks(activeFile.value);
    var r := OngoingMigrations(tasks);
    assert forall t :: t in r ==> StartsWith(t.upid, "UPID:") by {
      forall t | t in r
        ensures StartsWith(t.upid, "UPID:")
      {
        IndexTasksFromLines(activeFile.value, t);
      }
    }
    assert forall t :: t in r ==> |Split(t.upid, ':')| >= 2 by {
      forall t | t in r
        ensures |Split(t.upid, ':')| >= 2
      {
        IdHasNode(t.upid);
      }
    }
    r
  }

  /** `reply` is the answer to the prompt read by `int()`, `None` when it is not an integer. */
  function Select(cands: seq<MigrationTask>, reply: Option<int>): (s: Selection)
    ensures s == NoTasks <==> cands == []
    ensures s.Picked? ==> s.task in cands
    ensures |cands| == 1 ==> s == Picked(cands[0])
    ensures |cands| >= 2 ==> (s.Picked? <==> reply.Some? && 1 <= reply.value <= |cands|)
    ensures |cands| >= 2 && s.Picked? ==> s.task == cands[reply.value - 1]
  {
    if cands == [] then NoTasks
    else if |cands| == 1 then Picked(cands[0])
    else if reply.Some? && 0 <= reply.value - 1 < |cands| then Picked(cands[reply.value - 1])
    else Invalid
  }

  /** The log `main` follows: a found, non-empty path. */
  function LogOf(fs: FileSystem, task: MigrationTask): Option<string>
  {
    var p := LocateMigrationLog(fs, task.upid);
    if p.Some? && p.value != "" then p else None
  }

  const NoTasksText := "No qmigrate tasks appearing as ongoing were found.\n"
  const InvalidText := "Invalid selection.\n"

  function Rule(): string
  {
    RestoreRender.Repeat('-', 70) + "\n"
  }

  function NoLogText(task: MigrationTask): string
  {
    "Error: Could not find log file for UPID " + task.upid + ".\n"
  }

  function TaskLine(i: nat, t: MigrationTask): string
    requires |Split(t.upid, ':')| >= 2
  {
    "  " + NatToString(i + 1) + ". VM " + t.vmid + " on node " + NodeOf(t.upid) + " (UPID: " + t.upid + ")\n"
  }

  /** The numbered list of candidates, from the i-th on. */
  function TaskLines(cands: seq<MigrationTask>, i: nat): string
    requires i <= |cands| && forall t :: t in cands ==> |Split(t.upid, ':')| >= 2
    decreases |cands| - i
  {
    if i == |cands| then "" else TaskLine(i, cands[i]) + TaskLines(cands, i + 1)
  }

  /** What `main` prints before following a log: the auto-selection line, or the list and the prompt. */
  function Announcement(cands: seq<MigrationTask>): string
    requires forall t :: t in cands ==> |Split(t.upid, ':')| >= 2
  {
    if |cands| == 1 then "Auto-selecting task: VM " + cands[0].vmid + " on node " + NodeOf(cands[0].upid) + "\n"
    else "Ongoing qmigrate tasks found:\n" + TaskLines(cands, 0)
         + "Select task [1-" + NatToString(|cands|) + "]: "
  }

  function Opening(path: string): string
  {
    "Attempting to monitor log: " + path + "\n"
    + "Displaying progress with speed graph. Press Ctrl+C to stop.\n"
  }

  /** `print_final_summary`. */
  function Summary(task: MigrationTask, painted: bool, final: string, path: string): (s: string)
    requires |Split(task.upid, ':')| >= 2
    ensures StartsWith(s, (if painted then "\n" else "") + Rule())
    ensures EndsWith(s, "Final Status: " + final + "\n"
                        + (if path != "" then "Log file was: " + path + "\n" else "") + Rule())
  {
    var lead := (if painted then "\n" else "") + Rule();
    var middle := "Monitoring for VM " + task.vmid + " on " + NodeOf(task.upid) + " ended." + "\n";
    var tail := "Final Status: " + final + "\n"
      + (if path != "" then "Log file was: " + path + "\n" else "") + Rule();
    SummaryParts(lead, middle, tail);
    lead + (middle + tail)
  }

  lemma SummaryParts(lead: string, middle: string, tail: string)
    ensures StartsWith(lead + (middle + tail), lead) && EndsWith(lead + (middle + tail), tail)
  {
    AppendEnds(lead, middle + tail);
    AppendEnds(middle, tail);
    EndsWithTrans(lead + (middle + tail), middle + tail, tail);
  }

  /**
   * With no newline inside the VM id, the node, the status or the path, the
   * summary is four lines, five with the log path, after the optional blank line.
   */
  lemma SummaryLineCount(task: MigrationTask, painted: bool, final: string, path: string)
    requires |Split(task.upid, ':')| >= 2
    requires Lacks(task.vmid, '\n') && Lacks(NodeOf(task.upid), '\n')
    requires Lacks(final, '\n') && Lacks(path, '\n')
    ensures Count(Summary(task, painted, final, path), '\n')
         == (if painted then 1 else 0) + (if path != "" then 5 else 4)
  {
    RuleCount();
    var lead := if painted then "\n" else "";
    var middle := "Monitoring for VM " + task.vmid + " on " + NodeOf(task.upid) + " ended." + "\n";
    var status := "Final Status: " + final + "\n";
    var logLine := if path != "" then "Log file was: " + path + "\n" else "";
    assert Count(lead, '\n') == (if painted then 1 else 0) by { assert "\n"[1..] == ""; }
    EndedLineCount(task.vmid, NodeOf(task.upid));
    LabelledLineCount("Final Status: ", final);
    if path != "" {
      LabelledLineCount("Log file was: ", path);
    }
    CountSummaryParts(lead, Rule(), middle, status, logLine);
    assert Summary(task, painted, final, path) == (lead + Rule()) + (middle + (status + logLine + Rule()));
  }

  lemma RuleCount()
    ensures Count(Rule(), '\n') == 1
  {
    CountLacks(RestoreRender.Repeat('-', 70), '\n');
    LineCount(RestoreRender.Repeat('-', 70));
  }

  lemma EndedLineCount(vmid: string, node: string)
    requires Lacks(vmid, '\n') && Lacks(node, '\n')
    ensures Count("Monitoring for VM " + vmid + " on " + node + " ended." + "\n", '\n') == 1
  {
    LacksAppend("Monitoring for VM ", vmid, '\n');
    LacksAppend("Monitoring for VM " + vmid, " on ", '\n');
    LacksAppend("Monitoring for VM " + vmid + " on ", node, '\n');
    LacksAppend("Monitoring for VM " + vmid + " on " + node, " ended.", '\n');
    LineCount("Monitoring for VM " + vmid + " on " + node + " ended.");
  }

  lemma LabelledLineCount(caption: string, value: string)
    requires Lacks(caption, '\n') && Lacks(value, '\n')
    ensures Count(caption + value + "\n", '\n') == 1
  {
    LacksAppend(caption, value, '\n');
    LineCount(caption + value);
  }

  /** The newlines of the summary's parts add up. */
  lemma CountSummaryParts(lead: string, rule: string, middle: string, status: string, logLine: string)
    ensures Count((lead + rule) + (middle + (status + logLine + rule)), '\n')
         == Count(lead, '\n') + 2 * Count(rule, '\n') + Count(middle, '\n')
            + Count(status, '\n') + Count(logLine, '\n')
  {
    CountAppend(lead, rule, '\n');
    CountAppend(status, logLine, '\n');
    CountAppend(status + logLine, rule, '\n');
    CountAppend(middle, status + logLine + rule, '\n');
    CountAppend(lead + rule, middle + (status + logLine + rule), '\n');
  }

  /** A newline-free text and a newline make one line. */
  lemma LineCount(w: string)
    requires Lacks(w, '\n')
    ensures Count(w + "\n", '\n') == 1
  {
    CountLacks(w, '\n');
    CountAppend(w, "\n", '\n');
    assert Count("\n", '\n') == 1 by { assert "\n"[1..] == ""; }
  }

  /** The numbered listing of the candidate tasks. */
  method PrintTaskList(cands: seq<MigrationTask>) returns (text: string)
    requires forall t :: t in cands ==> |Split(t.upid, ':')| >= 2
    ensures text == TaskLines(cands, 0)
  {
    var i := |cands|;
    text := "";
    while i > 0
      invariant 0 <= i <= |cands|
      invariant text == TaskLines(cands, i)
    {
      i := i - 1;
      text := TaskLine(i, cands[i]) + text;
    }
  }

  /** What the selection step prints: the announcement, and "Invalid selection." after a bad reply. */
  function SelectionText(cands: seq<MigrationTask>, reply: Option<int>): string
    requires forall t :: t in cands ==> |Split(t.upid, ':')| >= 2
  {
    if cands == [] then NoTasksText
    else Announcement(cands) + (if Select(cands, reply) == Invalid then InvalidText else "")
  }

  /** The selection part of `main`. */
  method SelectTask(activeFile: Option<seq<string>>, reply: Option<int>) returns (text: string, sel: Selection)
    ensures sel == Select(Candidates(activeFile), reply)
    ensures text == SelectionText(Candidates(activeFile), reply)
  {
    var tasks := ReadActiveTasks(activeFile);
    var cands := OngoingMigrations(tasks);
    assert cands == Candidates(activeFile);
    if cands == [] {
      return NoTasksText, NoTasks;
    }
    if |cands| == 1 {
      sel := Picked(cands[0]);
      text := "Auto-selecting task: VM " + sel.task.vmid + " on node " + NodeOf(sel.task.upid) + "\n";
      return;
    }
    var listing := PrintTaskList(cands);
    text := "Ongoing qmigrate tasks found:\n" + listing + "Select task [1-" + NatToString(|cands|) + "]: ";
    if reply.None? || !(0 <= reply.value - 1 < |cands|) {
      return text + InvalidText, Invalid;
    }
    sel := Picked(cands[reply.value - 1]);
  }

  /**
   * Everything `main` prints once a task and its log are known. A negative
   * `plotWidth` makes `deque(maxlen=...)` raise a ValueError outside the
   * `try`, which `crashed` reports.
   */
  method WatchTask(task: MigrationTask, path: string, plotWidth: int, fs: FileSystem, plot: Plotter,
                   fixed: RestoreRender.Formatter, lines: seq<Option<string>>, interruptAt: Option<nat>)
    returns (text: string, crashed: bool)
    requires |Split(task.upid, ':')| >= 2
    ensures crashed <==> plotWidth < 0
    ensures StartsWith(text, Opening(path))
    ensures plotWidth >= 0 ==>
      EndsWith(text, Summary(task, true, Follow(Start, lines, 0, interruptAt, plotWidth).1, path))
  {
    var opening := Opening(path);
    if plotWidth < 0 {
      text := opening;
      assert text[..|opening|] == opening;
      return text, true;
    }
    var sc := Screen(plotWidth, fs, plot, fixed);
    var w, final, painted, out := MonitorLog(sc, task, lines, interruptAt);
    var summary := Summary(task, painted, final, path);
    var before := opening + out;
    text := before + summary;
    crashed := false;
    AppendEnds(before, summary);
    AppendEnds(opening, out);
    StartsWithTrans(text, before, opening);
  }

  /** What `main` does with the selected task: find its log, then watch it. */
  method RunSelected(task: MigrationTask, plotWidth: int, fs: FileSystem, plot: Plotter,
                     fixed: RestoreRender.Formatter, lines: seq<Option<string>>, interruptAt: Option<nat>)
    returns (text: string, crashed: bool)
    requires |Split(task.upid, ':')| >= 2
    ensures LogOf(fs, task).None? ==> text == NoLogText(task) && !crashed
    ensures crashed <==> LogOf(fs, task).Some? && plotWidth < 0
    ensures LogOf(fs, task).Some? && plotWidth >= 0 ==>
      EndsWith(text, Summary(task, true, Follow(Start, lines, 0, interruptAt, plotWidth).1, LogOf(fs, task).value))
  {
    var found := FindTaskLogfile(fs, task.upid);
    if found.None? || found.value == "" {
      return NoLogText(task), false;
    }
    text, crashed := WatchTask(task, found.value, plotWidth, fs, plot, fixed, lines, interruptAt);
  }

  /**
   * `main`. `reply` is the answer to the selection prompt, `plotWidth` is
   * `min(columns - 10, 70)`. Returns everything written to standard output
   * and whether an exception escaped.
   */
  method MigrationMain(activeFile: Option<seq<string>>, reply: Option<int>, plotWidth: int, fs: FileSystem,
                       plot: Plotter, fixed: RestoreRender.Formatter,
                       lines: seq<Option<string>>, interruptAt: Option<nat>)
    returns (stdout: string, crashed: bool)
    ensures StartsWith(stdout, SelectionText(Candidates(activeFile), reply))
    ensures !Select(Candidates(activeFile), reply).Picked? ==>
      stdout == SelectionText(Candidates(activeFile), reply) && !crashed
    ensures var s := Select(Candidates(activeFile), reply);
      s.Picked? && LogOf(fs, s.task).None? ==> EndsWith(stdout, NoLogText(s.task)) && !crashed
    ensures var s := Select(Candidates(activeFile), reply);
      crashed <==> s.Picked? && LogOf(fs, s.task).Some? && plotWidth < 0
    ensures var s := Select(Candidates(activeFile), reply);
      s.Picked? && LogOf(fs, s.task).Some? && plotWidth >= 0 ==>
        EndsWith(stdout, Summary(s.task, true, Follow(Start, lines, 0, interruptAt, plotWidth).1,
                                 LogOf(fs, s.task).value))
  {
    var text, sel := SelectTask(activeFile, reply);
    if !sel.Picked? {
      stdout := text;
      assert stdout[..|text|] == text;
      return stdout, false;
    }
    var rest;
    rest, crashed := RunSelected(sel.task, plotWidth, fs, plot, fixed, lines, interruptAt);
    stdout := text + rest;
    AppendEnds(text, rest);
    if LogOf(fs, sel.task).Some? && plotWidth >= 0 {
      EndsWithTrans(stdout, rest, Summary(sel.task, true, Follow(Start, lines, 0, interruptAt, plotWidth).1,
                                          LogOf(fs, sel.task).value));
    }
  }
}
