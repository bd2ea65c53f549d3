# Verified model of the Proxmox watchers, the OpenAI usage report, the image slideshow and the ks debug tool

This project is a Dafny model of the computational core of five command-line tools in one scripts
repository. Each tool's behaviour is stated as contracts and lemmas about that model, and the
verifier proves them.

- **Proxmox restore watcher** (`proxmox/restore-watcher/restore_watcher.py`):
  - The task index: `parse_upid`, `read_active_tasks`, `filter_restore_tasks` and `choose_restore_task`.
  - The UPID check and log folder search of `find_task_logfile`.
  - The three ordered progress patterns. MiB and bytes are normalised to GiB, and elapsed time is read as minutes and seconds.
  - The windowed speed and ETA estimator, which remembers the last speed, and the total average speed.
  - `_format_eta`, `_truncate`, the progress bar and the dashboard lines.
  - The terminal status classifier and the final message.
  - The monitoring loop, which stops at the first terminal line, and `main`'s control flow.
- **Proxmox migration watcher** (`proxmox/migration-watcher/watcher.py`):
  - Its stricter UPID grammar.
  - The `id:` / prefix log lookup.
  - The single GiB pattern.
  - The ten-point estimator that also counts negative deltas.
  - `main`'s task selection, sample acceptance (elapsed time must strictly increase) and marker checks.
  - `update_cli_display`, which always writes the same number of lines.
- **OpenAI usage report** (`openai-usage/src/api_usage.py`):
  - Per-model costs.
  - The key-id filter and date-order check of `fetch_usage_details`.
  - The composite sort key.
  - The grouped table of `display_results`: its subtotal rows partition the grand total, and the stable sort behind it is proved a permutation.
- **Slideshow** (`slideshow/src/slideshow/`):
  - Favorites: loading, saving and toggling, with a load-after-save round trip.
  - Image list filtering, shuffling and sorting.
  - The preload cache window.
  - The `ImageSlideshowApp` state machine of `app.py`, `controls.py`, `display.py` and `hud.py`.
  - Separately, the legacy single-file application in `__main__.py`. It has its own clamps, its favorite re-indexing when an image disappears, its preload eviction and its `main`.
- **ks** (`ks/ks.py`, `ks/cli.py`, `ks/src/ks/`):
  - The `fzf_select` and `run_command` wrappers in their three variants.
  - The cleanup registry: last in, first out, isolating failures, and never cleared.
  - The `kubectl debug` argument vectors, with their read-back lemmas.
  - The selection rules and exit statuses of each `main`.

Everything outside the program is an input of the model:
- **Time**: a clock is a function from call number to reading; `now` is a parameter.
- **Files**: the file system is a set of existing paths or a map from folder to listing. A log is a finite sequence of lines, in which `""` is a poll that found nothing.
- **Randomness**: the shuffled order and the UUID are parameters.
- **Pictures**: decoded pictures are a map from path to an opaque picture.
- **The cluster**: the Kubernetes API's answers are a `Cluster` value. The user's fzf picks are a value too.
- **Exits**: `sys.exit` is an `Exit(status)` outcome.

Python's integers are Dafny's `int`, and floats are `real`. Where the program truncates (`int(...)`) or floors, the model says so explicitly. The program's `%` always has a positive modulus here, so Dafny's `%` matches it.

Where the repository's documentation and its code differ, the model follows the code:
- `_parse_elapsed_seconds` looks for `m` and `s` case-sensitively, although the progress pattern ignores case, so "1M 31S" counts as 0 seconds.
- `restore_watcher.py` keeps every parsed sample, while `watcher.py` drops a sample whose elapsed time does not increase.
- The brightness cap is 3.0 in `controls.py` and 2.0 in the legacy `__main__.py`.
- `run_cleanup` never empties its list, so a second run (the explicit one and the `atexit` one) calls every task again.

One module per source component, each in its own file:
- `wrappers`, `text`, `numbers`, `sorting`: shared helpers.
- `restore_*`: the restore watcher.
- `migration_*`: the migration watcher.
- `usage_*`: the usage report.
- `slideshow_*`: the slideshow.
- `ks_*`: the ks tool.

Objects whose fields the program updates in place are classes whose methods are proved against specification functions: the slideshow applications, the migration display's first-paint flag, the cached Kubernetes client and the cleanup registry. Loops that build lists or accumulate sums (the estimators, the monitoring loops, the table walk, the argument-vector builders) are methods, with loop invariants where they loop, proved equal to a specification function.

## Model

| member | source | states |
|---|---|---|
| RestoreTasks.ParseUpid | proxmox/restore-watcher/restore_watcher.py:61-77 | an empty line (after its newline is dropped) and only it gives no task |
| RestoreTasks.ParseUpidShape | proxmox/restore-watcher/restore_watcher.py:61-77 | a line fails with IndexError exactly when it is non-empty and all whitespace; a parsed task keeps the raw line, and its id is a word of that line |
| RestoreTasks.ParseUpidWithStatus | proxmox/restore-watcher/restore_watcher.py:61-77 | a line "<id> <status> ..." yields that id, the action field of the id, that status and the raw line |
| RestoreTasks.ParseUpidDoubleSpace | proxmox/restore-watcher/restore_watcher.py:68-72 | a line whose id is followed by two spaces has the empty status |
| RestoreTasks.ActiveOfSound | proxmox/restore-watcher/restore_watcher.py:80-97 | every task read is active and comes from a line of the index |
| RestoreTasks.ActiveOfComplete | proxmox/restore-watcher/restore_watcher.py:80-97 | every active task of the index is read |
| RestoreTasks.ActiveTasksExactly | proxmox/restore-watcher/restore_watcher.py:80-97 | reading fails exactly when some line is blank; otherwise a task is read if and only if it is active and parsed from some line |
| RestoreTasks.ReadActiveTasks | proxmox/restore-watcher/restore_watcher.py:80-97 | a missing index gives no task; otherwise the result is the active tasks of the lines in file order |
| RestoreTasks.RestoreLike | proxmox/restore-watcher/restore_watcher.py:100-112 | the kept tasks are restore-like tasks of the input, no more of them than the input holds |
| RestoreTasks.RestoreLikeComplete | proxmox/restore-watcher/restore_watcher.py:100-112 | every restore-like task of the input is kept |
| RestoreTasks.FilterRestoreTasks | proxmox/restore-watcher/restore_watcher.py:100-112 | the loop keeps exactly the restore-like tasks, in input order |
| RestoreTasks.ChooseRestoreTask | proxmox/restore-watcher/restore_watcher.py:417-423 | no task exactly when the list is empty; otherwise the last task listed |
| RestoreLogfile.ExpectedFolder | proxmox/restore-watcher/restore_watcher.py:119-128 | when an id is accepted, its folder is one of the sixteen hexadecimal archive folders |
| RestoreLogfile.ExpectedFolderOfFields | proxmox/restore-watcher/restore_watcher.py:119-128 | an id with at least eight fields, "UPID" first and an eight-digit hex fifth field is archived under the upper-cased first digit of that field |
| RestoreLogfile.ShortIdRejected | proxmox/restore-watcher/restore_watcher.py:120-121 | an id with fewer than eight colon fields is rejected before any lookup |
| RestoreLogfile.MalformedIdRejected | proxmox/restore-watcher/tests/test_log_resolution.py:36-39 | the malformed id of the test suite has no log file |
| RestoreLogfile.FindTaskLogfile | proxmox/restore-watcher/restore_watcher.py:115-144 | the expected folder is tried first and wins when its file exists; none is found exactly when no folder holds the file; a rejected id finds none |
| RestoreLogfile.ResolveRestoreLogfile | proxmox/restore-watcher/restore_watcher.py:426-433 | a task without an id has no log file; a file found exists and belongs to an accepted id |
| RestoreProgress.NumValue | proxmox/restore-watcher/restore_watcher.py:159-161 | a captured decimal is worth at least its whole part |
| RestoreProgress.ToGib | proxmox/restore-watcher/restore_watcher.py:364-368 | a MiB value is divided by 1024; any other unit is kept as it is |
| RestoreProgress.BytesToGib | proxmox/restore-watcher/restore_watcher.py:371-373 | a byte count is divided by 1024 cubed |
| RestoreProgress.ParseProgressLine | proxmox/restore-watcher/restore_watcher.py:147-176 | a parsed point is never negative: elapsed seconds, transferred amount and total |
| RestoreProgress.ParseIffSomePatternMatches | proxmox/restore-watcher/restore_watcher.py:21-47 | a line yields a point exactly when one of the three patterns occurs in it |
| RestoreProgress.SizeMatchYieldsPoint | proxmox/restore-watcher/restore_watcher.py:152-160 | a match of the size pattern always yields a point |
| RestoreProgress.BytesMatchYieldsPoint | proxmox/restore-watcher/restore_watcher.py:162-170 | a match of the qmrestore byte-count pattern always yields a point |
| RestoreProgress.PercentMatchYieldsPoint | proxmox/restore-watcher/restore_watcher.py:172-174 | a match of the percentage pattern always yields a point |
| RestoreProgress.NumberPrefixOf | proxmox/restore-watcher/restore_watcher.py:25-26 | a decimal written out and followed by neither a digit nor a point is captured whole, with its value |
| RestoreProgress.ElapsedPrefixOf | proxmox/restore-watcher/restore_watcher.py:27 | a duration written as minutes and seconds, or seconds alone, is captured and worth its number of seconds |
| RestoreProgress.LazySkip | proxmox/restore-watcher/restore_watcher.py:27 | the lazy gap skips text at none of whose positions the rest of the pattern matches |
| RestoreProgress.InElapsedNotInNote | proxmox/restore-watcher/restore_watcher.py:27 | the elapsed part cannot match inside a note free of " in" followed by the elapsed text |
| RestoreProgress.SizeHeadMatches | proxmox/restore-watcher/restore_watcher.py:25-27 | "transferred <x> <unit> of <y> <unit>" is matched, capturing both sizes and units |
| RestoreProgress.SizeLineMatches | proxmox/restore-watcher/restore_watcher.py:21-29 | the size pattern matches a size line from start to end, capturing both sizes, their units and the elapsed seconds |
| RestoreProgress.SizeLineParses | proxmox/restore-watcher/restore_watcher.py:147-160 | a size line parses into its elapsed seconds and both sizes converted to GiB |
| RestoreProgress.ParseAtSizeMatch | proxmox/restore-watcher/restore_watcher.py:149-160 | when the size pattern matches at the start of a line, its captures alone decide the point |
| RestoreProgress.TotalOf | proxmox/restore-watcher/restore_watcher.py:169 | the computed total is the size of which the bytes read are the given percentage |
| RestoreProgress.BytesPoint | proxmox/restore-watcher/restore_watcher.py:162-170 | the qmrestore captures give a point exactly when they are a percentage and two integers: the duration, the bytes read in GiB, no total for a percentage of 0 or less, and otherwise a total of which the bytes read are that percentage |
| RestoreProgress.PercentPoint | proxmox/restore-watcher/restore_watcher.py:172-174 | the percentage captures give a point exactly when they are a decimal and an integer: the elapsed seconds, the percentage itself and no total |
| RestoreProgress.ParseAtBytesMatch | proxmox/restore-watcher/restore_watcher.py:149-170 | when the size pattern occurs nowhere and the qmrestore pattern matches at the start, the qmrestore captures decide the point |
| RestoreProgress.ParseAtPercentMatch | proxmox/restore-watcher/restore_watcher.py:149-174 | when neither earlier pattern occurs and the percentage pattern matches at the start, its captures decide the point |
| RestoreProgress.SearchNeedsLetter | proxmox/restore-watcher/restore_watcher.py:149-151 | a pattern opening with a word cannot be found in a text lacking one of the word's letters |
| RestoreProgress.BytesHeadMatches | proxmox/restore-watcher/restore_watcher.py:34-35 | "progress <p>% (read <b> bytes," is matched, capturing the percentage and the byte count |
| RestoreProgress.BytesLineMatches | proxmox/restore-watcher/restore_watcher.py:31-38 | the qmrestore pattern matches a qmrestore line with a quiet note, capturing the percentage, the bytes read and the duration |
| RestoreProgress.BytesLineNotSize | proxmox/restore-watcher/restore_watcher.py:21-29 | the size pattern occurs nowhere in a qmrestore line whose note and tail have no "f" |
| RestoreProgress.BytesLineParses | proxmox/restore-watcher/tests/test_progress_parsing.py:42-48 | a qmrestore line (the test's line is one, with the note " zeroes = 10% (214748364 bytes), ") parses into its duration, the bytes read in GiB and bytes·100/percent, or no total for a percentage of 0 or less |
| RestoreProgress.PercentHeadMatches | proxmox/restore-watcher/restore_watcher.py:40-47 | "transferred <p>% in <elapsed>" is matched, capturing the percentage and the elapsed seconds |
| RestoreProgress.PercentLineNotSize | proxmox/restore-watcher/restore_watcher.py:21-29 | the size pattern fails where a "%" follows the first number and cannot occur later in a percent-only line |
| RestoreProgress.PercentLineNotBytes | proxmox/restore-watcher/restore_watcher.py:31-38 | the qmrestore pattern occurs nowhere in a percent-only line |
| RestoreProgress.PercentLineParses | proxmox/restore-watcher/tests/test_progress_parsing.py:26-32 | a percent-only line (such as "transferred 37.5% in 45s") parses into its elapsed seconds, its percentage and no total |
| RestoreMetrics.Window | proxmox/restore-watcher/restore_watcher.py:191 | the window is the last six points, or all of them when there are fewer |
| RestoreMetrics.DeltaSums | proxmox/restore-watcher/restore_watcher.py:192-201 | the summed deltas of the advancing steps are never negative, and the time sum is positive exactly when the value sum is |
| RestoreMetrics.SpeedWithMemory | proxmox/restore-watcher/restore_watcher.py:184-205 | fewer than two points report the remembered speed; otherwise the speed is the remembered one or the rate of the summed advancing steps |
| RestoreMetrics.Rate | proxmox/restore-watcher/restore_watcher.py:203-205 | the rate times the summed seconds gives the summed value |
| RestoreMetrics.EtaWithMemory | proxmox/restore-watcher/restore_watcher.py:184-213 | fewer than two points give an infinite ETA; a finite ETA needs a known total and, times the speed, gives the remaining amount clamped at 0 |
| RestoreMetrics.EstimateWithMemory | proxmox/restore-watcher/restore_watcher.py:184-213 | the method computes exactly the speed and ETA specified above |
| RestoreMetrics.SumDeltas | proxmox/restore-watcher/restore_watcher.py:192-201 | the loop over consecutive pairs of the window computes the summed deltas of its advancing steps |
| RestoreMetrics.Estimate | proxmox/restore-watcher/restore_watcher.py:179-181 | the estimate without memory is the one with a remembered speed of 0 |
| RestoreMetrics.OnlyWindowCounts | proxmox/restore-watcher/restore_watcher.py:191 | history older than the last six points never changes the speed or the ETA |
| RestoreMetrics.StallKeepsSpeed | proxmox/restore-watcher/restore_watcher.py:203-205 | when no step of the window advances, the remembered speed is reported |
| RestoreMetrics.SteadySpeed | proxmox/restore-watcher/restore_watcher.py:192-205 | when every step of the window advances, the speed is the slope from the window's first point to its last |
| RestoreMetrics.WindowGrows | proxmox/restore-watcher/restore_watcher.py:198 | along advancing points both time and value grow from the first point to the last |
| RestoreMetrics.TotalAverageSpeed | proxmox/restore-watcher/restore_watcher.py:333-344 | never negative; 0 for fewer than two points; positive exactly when both time and value grew, and then it times the elapsed time gives the value gained |
| RestoreMetrics.Round | proxmox/restore-watcher/restore_watcher.py:349 | the nearest integer, within one half, the even one on a tie |
| RestoreMetrics.Pad2 | proxmox/restore-watcher/restore_watcher.py:352 | digits only, at least two of them, exactly two below 100 |
| RestoreMetrics.Pad2Value | proxmox/restore-watcher/restore_watcher.py:352 | the padded text reads back as the number |
| RestoreMetrics.FormatHmsReadsBack | proxmox/restore-watcher/restore_watcher.py:350-352 | "hh:mm:ss" reads back as the number of seconds, with minutes and seconds in two digits below 60 |
| RestoreMetrics.FormatEtaReadsBack | proxmox/restore-watcher/restore_watcher.py:347-352 | the formatted ETA reads back as the rounded seconds, clamped at 0 |
| RestoreRender.Truncate | proxmox/restore-watcher/restore_watcher.py:376-382 | a string that fits is kept; a longer one is cut to the limit with "..." as its last three characters when the limit exceeds 3, else cut plainly (a negative limit counting from the end, as a Python slice does) |
| RestoreRender.TruncateBound | proxmox/restore-watcher/restore_watcher.py:376-382 | the result is never longer than a non-negative limit nor than the original |
| RestoreRender.SharePercent | proxmox/restore-watcher/restore_watcher.py:228 | with a positive total the percentage times the total is 100 times the value; otherwise it is 0 |
| RestoreRender.MetricsEtaText | proxmox/restore-watcher/restore_watcher.py:234-236 | "ETA: n/a" exactly when the ETA is infinite |
| RestoreRender.BuildMetricsLine | proxmox/restore-watcher/restore_watcher.py:216-237 | no point gives the fixed "n/a" line; otherwise the line opens with "Progress: " and ends with the ETA of the points |
| RestoreRender.ProgressAndSpeed | proxmox/restore-watcher/restore_watcher.py:224-232 | the progress part always opens with "Progress: " |
| RestoreRender.BarPercent | proxmox/restore-watcher/restore_watcher.py:248-256 | the bar percentage lies between 0 and 100, and is 0 with no point |
| RestoreRender.Filled | proxmox/restore-watcher/restore_watcher.py:258-259 | the filled cells are the percentage of the 28 cells rounded down, never more than 28 |
| RestoreRender.FilledMonotone | proxmox/restore-watcher/restore_watcher.py:258-259 | more progress never fills fewer cells; 0% fills none and 100% fills all |
| RestoreRender.Bar | proxmox/restore-watcher/restore_watcher.py:260 | 30 characters in brackets: '=' in the filled cells and '.' in the rest |
| RestoreRender.EtaText | proxmox/restore-watcher/restore_watcher.py:263 | "n/a" exactly when the ETA is infinite |
| RestoreRender.BuildTqdmLine | proxmox/restore-watcher/restore_watcher.py:240-278 | the line opens with the bar for the clamped percentage and ends with the ETA and the waiting marker |
| RestoreRender.LastLogs | proxmox/restore-watcher/restore_watcher.py:302 | the five most recent log lines, or all of them when there are fewer |
| RestoreRender.LogLine | proxmox/restore-watcher/restore_watcher.py:302-306 | a log line is indented by two spaces and cut to 140 characters with "..." |
| RestoreRender.BuildDashboardLines | proxmox/restore-watcher/restore_watcher.py:281-312 | the status line first, then each of the last five log lines as shown, and nothing else |
| RestoreRender.IndentLogs | proxmox/restore-watcher/restore_watcher.py:302-306 | the loop shows every log line given, in order |
| RestoreRender.RenderedLength | proxmox/restore-watcher/restore_watcher.py:325-328 | rendering writes each line, its newline and, on a terminal, the clear sequence, and nothing more |
| RestoreRender.RenderDashboard | proxmox/restore-watcher/restore_watcher.py:315-330 | on a terminal already showing a dashboard the cursor first moves up over it; then every line is written; the count returned is the number of lines |
| RestoreMonitor.DetectTerminalStatus | proxmox/restore-watcher/restore_watcher.py:385-392 | "failure" exactly when a failure marker occurs in the lower-cased line; "success" exactly when no failure marker but a success marker does; nothing else |
| RestoreMonitor.DetectIgnoresCase | proxmox/restore-watcher/restore_watcher.py:387 | lower-casing a line first never changes its status |
| RestoreMonitor.FailureMarkerAnywhere | proxmox/restore-watcher/restore_watcher.py:388-389 | a failure marker anywhere in a line makes it a failure |
| RestoreMonitor.SuccessMarkerAnywhere | proxmox/restore-watcher/restore_watcher.py:390-391 | a success marker makes a line a success unless a failure marker also occurs |
| RestoreMonitor.MapFinalStatusMessage | proxmox/restore-watcher/restore_watcher.py:403-414 | the five known statuses are named after "Final status: "; no status or any other gives the unknown summary |
| RestoreMonitor.ParsedPoints | proxmox/restore-watcher/restore_watcher.py:477-479 | no more samples than lines |
| RestoreMonitor.Push5 | proxmox/restore-watcher/restore_watcher.py:459-476 | the bounded deque never holds more than five lines and ends with the one appended |
| RestoreMonitor.LastFiveIsSuffix | proxmox/restore-watcher/restore_watcher.py:459 | the deque's contents are the tail of what was appended, five lines long once five were appended |
| RestoreMonitor.Push5LastFive | proxmox/restore-watcher/restore_watcher.py:474-476 | the deque holds the last five lines appended to it |
| RestoreMonitor.FirstTerminal | proxmox/restore-watcher/restore_watcher.py:517-522 | the index found has a terminal status and no line before it has one; none found means no line has one |
| RestoreMonitor.CollectOutcome | proxmox/restore-watcher/restore_watcher.py:448-530 | the status monitoring ends with is none, or one of the five known statuses |
| RestoreMonitor.OutcomeSummaries | proxmox/restore-watcher/restore_watcher.py:403-530 | the summary is the unknown one exactly when the log ends without a verdict |
| RestoreMonitor.Repaint | proxmox/restore-watcher/restore_watcher.py:481-492 | the text written is the cursor move up over the previous dashboard (on a terminal that shows one), then the status line (cleared first on a terminal), then each of the last five log lines indented and cut to 140 characters, each ending in a newline; the count is one plus the number of log lines shown |
| RestoreMonitor.ReadLine | proxmox/restore-watcher/restore_watcher.py:473-515 | one line read adds its sample, if any, to the points and, when non-empty, to the deque; without a console nothing is written |
| RestoreMonitor.ReadNextLine | proxmox/restore-watcher/restore_watcher.py:473-515 | after line k the points are the samples of the lines read so far and the deque holds their last five non-empty lines |
| RestoreMonitor.OutcomeAtTerminal | proxmox/restore-watcher/restore_watcher.py:517-522 | the first terminal line, reached before the interrupt, ends monitoring with its status and the samples up to it included |
| RestoreMonitor.OutcomeAtInterrupt | proxmox/restore-watcher/restore_watcher.py:523-525 | an interrupt before any terminal line ends monitoring as "interrupted" with the samples read so far |
| RestoreMonitor.OutcomeAtEnd | proxmox/restore-watcher/restore_watcher.py:527 | a log that ends without a terminal line or interrupt gives no status and all its samples |
| RestoreMonitor.FollowLines | proxmox/restore-watcher/restore_watcher.py:472-525 | the loop stops at the first terminal line, at the interrupt or at the end of the stream, with the samples of the lines read |
| RestoreMonitor.CollectMonitoringData | proxmox/restore-watcher/restore_watcher.py:448-530 | the samples and status are exactly the specified outcome; nothing is written without a console |
| RestoreMonitor.MonitorRestoreTask | proxmox/restore-watcher/restore_watcher.py:533-557 | a task whose log cannot be found ends as "log-missing" with no sample; otherwise the log is monitored as above |
| RestoreMonitor.MainSummaryUnknown | proxmox/restore-watcher/restore_watcher.py:571-606 | the final summary is unknown exactly when the index cannot be read or the selected task's log ends without a verdict |
| RestoreMonitor.RunMain | proxmox/restore-watcher/restore_watcher.py:571-606 | an error escapes exactly when the index cannot be read; the summary line is always printed last; a selected task is announced first |
| MigrationTasks.Leading | proxmox/migration-watcher/watcher.py:62-63 | the longest prefix in the class: every character of it is in the class and the next one is not |
| MigrationTasks.ParseFields | proxmox/migration-watcher/watcher.py:62-63 | the fields found, one per field of the pattern, joined by colons and followed by the rest, give back the text |
| MigrationTasks.ParseFieldsSound | proxmox/migration-watcher/watcher.py:62-63 | every field found fits its class and the last one is as long as it can be |
| MigrationTasks.ParseFieldsCons | proxmox/migration-watcher/watcher.py:62-63 | a valid first field followed by a colon is taken whole, and the rest is matched after it |
| MigrationTasks.ParseFieldsJoin | proxmox/migration-watcher/watcher.py:62-63 | fields that fit their classes, joined by colons, are matched back exactly |
| MigrationTasks.ParseFieldsRejects | proxmox/migration-watcher/watcher.py:62-63 | a field holding a character outside its class makes the match fail |
| MigrationTasks.ParseUpid | proxmox/migration-watcher/watcher.py:49-77 | a parsed task's id starts with "UPID:" and its VM id is never empty ("N/A" stands in for a missing one) |
| MigrationTasks.ParseUpidOfFields | proxmox/migration-watcher/watcher.py:49-77 | every id of the right shape parses, with or without a status after a space, into its action, VM id (or "N/A"), user and status |
| MigrationTasks.StatusTailOf | proxmox/migration-watcher/watcher.py:62-68 | the text after the user field gives back the status it carries |
| MigrationTasks.BadFieldRejected | proxmox/migration-watcher/watcher.py:62-63 | a field before the user field holding a character outside its class (lower-case hexadecimal in the pid, say) rejects the line, whatever follows |
| MigrationTasks.TaskOfLine | proxmox/migration-watcher/watcher.py:90-95 | a line of the index gives at most one task |
| MigrationTasks.IndexTasks | proxmox/migration-watcher/watcher.py:89-95 | no more tasks than lines |
| MigrationTasks.IndexTasksAppend | proxmox/migration-watcher/watcher.py:89-95 | reading two parts of the index one after the other gives the tasks of each, in order |
| MigrationTasks.IndexTasksFromLines | proxmox/migration-watcher/watcher.py:89-95 | every task read comes from a line that, stripped, parses to it |
| MigrationTasks.ReadActiveTasks | proxmox/migration-watcher/watcher.py:80-102 | a missing index gives no task; otherwise the tasks of its id lines in file order |
| MigrationTasks.OngoingMigrations | proxmox/migration-watcher/watcher.py:419-422 | exactly the tasks that are qmigrate and ongoing (status "0" or empty) are kept |
| MigrationTasks.OngoingInIndexOrder | proxmox/migration-watcher/watcher.py:419-422 | the kept tasks stay in index order with their repeats: the list for a prefix of the index is a prefix of the whole list, and an ongoing migration at index `k` comes right after the ones kept before it, which is the numbering the selection at lines 433-444 uses |
| MigrationTasks.CandidateStartsWithId | proxmox/migration-watcher/watcher.py:120-130 | the exact-name test adds nothing to the prefix test: the candidate name starts with the id |
| MigrationTasks.FirstInListing | proxmox/migration-watcher/watcher.py:126-131 | a path found is a regular file, joined from the folder and a listed name that matches the id |
| MigrationTasks.ScanListing | proxmox/migration-watcher/watcher.py:127-131 | the loop over one folder's listing finds the first matching regular file |
| MigrationTasks.FindTaskLogfile | proxmox/migration-watcher/watcher.py:105-143 | the expected folder first, then every folder 0-F in order; no fifth field gives none |
| MigrationTasks.FallbackFound | proxmox/migration-watcher/watcher.py:133-142 | a path found by the fallback scan is a regular file listed in some folder under a name starting with the id |
| MigrationTasks.FoundInFolder | proxmox/migration-watcher/watcher.py:126-131 | a path found in one folder is a regular file listed there under a name starting with the id |
| MigrationTasks.LocatedLogIsListed | proxmox/migration-watcher/watcher.py:105-143 | whatever the lookup returns is a regular file listed under a name starting with the id |
| MigrationTasks.ShortIdHasNoLog | proxmox/migration-watcher/watcher.py:117-121 | an id with fewer than five colon fields has no log file |
| MigrationProgress.Expect | proxmox/migration-watcher/watcher.py:158-160 | a literal matched at the start is followed by the rest returned |
| MigrationProgress.RunSound | proxmox/migration-watcher/watcher.py:158-160 | a run of the number class found is non-empty, in the class, and as long as it can be |
| MigrationProgress.MatchTimeSound | proxmox/migration-watcher/watcher.py:159 | a time match is "<digits>m <digits>s" followed by the rest |
| MigrationProgress.MatchAtSound | proxmox/migration-watcher/watcher.py:158-160 | every match is the pattern's text with five well-formed groups |
| MigrationProgress.MatchTimeOf | proxmox/migration-watcher/watcher.py:159 | minutes and seconds written out are matched back |
| MigrationProgress.MatchAtOf | proxmox/migration-watcher/watcher.py:158-160 | the pattern matches the text of any well-formed groups and finds exactly those groups |
| MigrationProgress.MatchAtKeyword | proxmox/migration-watcher/watcher.py:159 | a match starts with "transferred " |
| MigrationProgress.SearchAtMatch | proxmox/migration-watcher/watcher.py:158-160 | the search finds the groups of a match that starts the text |
| MigrationProgress.SearchSkips | proxmox/migration-watcher/watcher.py:158-160 | a prefix without a 't' cannot start a match and is skipped |
| MigrationProgress.SearchNeedsKeyword | proxmox/migration-watcher/watcher.py:158-160 | a line without "transferred " yields no reading |
| MigrationProgress.FloatOfNumber | proxmox/migration-watcher/watcher.py:162-163 | a written decimal number is read back as its value |
| MigrationProgress.FloatRefusesTwoPoints | proxmox/migration-watcher/watcher.py:162-163 | a text with two points is refused by the float conversion |
| MigrationProgress.ProgressLineReadsBack | proxmox/migration-watcher/watcher.py:146-168 | after any prefix free of 't', a well-formed match is found and read |
| MigrationProgress.ReadingOfNumbers | proxmox/migration-watcher/watcher.py:161-167 | numbers as the migration task writes them read back as (60 times minutes plus seconds, transferred, total) |
| MigrationProgress.TwoPointsRaise | proxmox/migration-watcher/watcher.py:158-163 | a transferred amount with two points matches the pattern and then makes the parser raise ValueError |
| MigrationMetrics.Window | proxmox/migration-watcher/watcher.py:222-230 | the last ten samples, or all of them when there are fewer |
| MigrationMetrics.EtaAndSpeed | proxmox/migration-watcher/watcher.py:202-254 | ZeroDivisionError exactly when there are two points and the total is 0; a finite ETA needs two points and a positive speed; fewer than two points give speed 0 and an infinite ETA |
| MigrationMetrics.PercentOfTotal | proxmox/migration-watcher/watcher.py:214-246 | the percentage is the latest amount as a share of a non-zero total, and 0 with no total, a zero total or no point |
| MigrationMetrics.SumDeltas | proxmox/migration-watcher/watcher.py:232-239 | the loop sums the time and progress deltas of the steps where time advances |
| MigrationMetrics.CalculateEtaAndSpeed | proxmox/migration-watcher/watcher.py:202-254 | the method computes exactly the specified speed, ETA and percentage, or the ZeroDivisionError |
| MigrationMetrics.OnlyLastTenCount | proxmox/migration-watcher/watcher.py:222-230 | points older than the last ten do not change the estimate |
| MigrationMetrics.Telescopes | proxmox/migration-watcher/watcher.py:232-239 | when time advances at every step, the sums are last minus first |
| MigrationMetrics.SteadySpeed | proxmox/migration-watcher/watcher.py:232-244 | with time advancing at every step of the window, the speed is the window's net progress over its elapsed time, in MiB/s, negative when the transfer went backwards |
| MigrationMetrics.EtaNonNegative | proxmox/migration-watcher/watcher.py:247-252 | a finite ETA before completion is never negative |
| MigrationDisplay.IdHasNode | proxmox/migration-watcher/watcher.py:278 | every parsed id starts with "UPID:", so taking its node field never fails |
| MigrationDisplay.Take | proxmox/migration-watcher/watcher.py:312-372 | the first n items, or all of them when there are fewer |
| MigrationDisplay.LastN | proxmox/migration-watcher/watcher.py:364-366 | the last n items, or all of them when there are fewer |
| MigrationDisplay.PadTo | proxmox/migration-watcher/watcher.py:288-370 | the items kept in front, then the filler up to n items |
| MigrationDisplay.LeftJustify | proxmox/migration-watcher/watcher.py:311 | the text padded on the right to the width, longer texts kept whole |
| MigrationDisplay.HmsFields | proxmox/migration-watcher/watcher.py:305 | a time of day is three colon-separated fields: hours, two-digit minutes, two-digit seconds |
| MigrationDisplay.ClockReadsBack | proxmox/migration-watcher/watcher.py:305 | below one day the text reads back as the seconds, minutes and seconds below 60 |
| MigrationDisplay.TimedeltaDays | proxmox/migration-watcher/watcher.py:305 | below one day no day count is shown; from one day on the text starts with the day count |
| MigrationDisplay.EtaText | proxmox/migration-watcher/watcher.py:300-305 | "calculating..." for an infinite ETA while slow and unfinished, "N/A" for any other infinite ETA, "Completed" for a finite one at 100%, else the duration |
| MigrationDisplay.TimedeltaNotWord | proxmox/migration-watcher/watcher.py:300-305 | a duration is never mistaken for one of the fixed words |
| MigrationDisplay.StatsBlock | proxmox/migration-watcher/watcher.py:284-313 | four lines opening with the header and a separator; ZeroDivisionError exactly when there are points, a total, and the estimator raises |
| MigrationDisplay.GraphBlock | proxmox/migration-watcher/watcher.py:319-350 | always eight graph lines, all blank until there are two speeds |
| MigrationDisplay.UpperBlock | proxmox/migration-watcher/watcher.py:315-358 | the lines before the recent logs are fifteen |
| MigrationDisplay.DisplayLayout | proxmox/migration-watcher/watcher.py:257-372 | always exactly 17 lines: header and separator, the graph between two separators, the title, and the last two recent log lines indented (or blank lines) |
| MigrationDisplay.AssembledLayout | proxmox/migration-watcher/watcher.py:312-372 | the statistics, separator, graph, separator and title are in their fixed places among the 17 lines |
| MigrationDisplay.Assemble | proxmox/migration-watcher/watcher.py:360-372 | fifteen upper lines and at most two log lines, padded to seventeen with blank lines |
| MigrationDisplay.DisplayErrors | proxmox/migration-watcher/watcher.py:294-295 | the only error a refresh raises is the estimator's ZeroDivisionError, for a total of 0 with two points |
| MigrationDisplay.BuildStats | proxmox/migration-watcher/watcher.py:284-313 | the statistics lines built step by step are the specified ones |
| MigrationDisplay.PadLines | proxmox/migration-watcher/watcher.py:288-370 | the loop pads the lines to the specified length with the filler |
| MigrationDisplay.BuildLines | proxmox/migration-watcher/watcher.py:284-372 | the 17 lines built step by step are the specified ones |
| MigrationDisplay.CliDisplay.Update | proxmox/migration-watcher/watcher.py:257-382 | an estimator error is raised before anything is written; otherwise the cursor moves up over the previous block, if any, and every line is cleared and written |
| MigrationDisplay.PaintLines | proxmox/migration-watcher/watcher.py:380-381 | each line is written after a clear sequence and followed by a newline |
| MigrationMonitor.Push | proxmox/migration-watcher/watcher.py:462-514 | a bounded deque keeps the last n entries appended; one of capacity 0 keeps none |
| MigrationMonitor.FirstOccurrence | proxmox/migration-watcher/watcher.py:498-499 | the first position from i on where the text occurs, or none when it does not occur |
| MigrationMonitor.Sample | proxmox/migration-watcher/watcher.py:503-516 | reading a sample keeps the state well-formed and leaves the recent log lines alone |
| MigrationMonitor.SampleOf | proxmox/migration-watcher/watcher.py:504-516 | recording a parsed sample keeps the state well-formed and the recent log lines alone |
| MigrationMonitor.Absorb | proxmox/migration-watcher/watcher.py:489-518 | handling a non-empty line keeps the state well-formed |
| MigrationMonitor.Follow | proxmox/migration-watcher/watcher.py:476-534 | the final state of the loop is well-formed |
| MigrationMonitor.FollowAt | proxmox/migration-watcher/watcher.py:480-518 | an exhausted stream ends as "Log Unavailable"; an empty read moves on; a non-empty line ends the run with its verdict or goes on with the state it leaves |
| MigrationMonitor.VerdictMarkers | proxmox/migration-watcher/watcher.py:493-502 | a line has a verdict exactly when it holds a marker, and success markers win over failure markers |
| MigrationMonitor.FailureQuotesError | proxmox/migration-watcher/watcher.py:497-501 | the failure status quotes what follows the first "TASK ERROR", stripped |
| MigrationMonitor.FailureWithoutMessage | proxmox/migration-watcher/watcher.py:497-501 | a failure marker without "TASK ERROR" gives "Failed (failure in log)" |
| MigrationMonitor.LineIsQueued | proxmox/migration-watcher/watcher.py:489-502 | every non-empty line is queued as the newest recent log line; a line with a verdict ends the run with that status and reads no sample |
| MigrationMonitor.StaleSampleIgnored | proxmox/migration-watcher/watcher.py:506 | a sample whose time is not later than the last one changes nothing |
| MigrationMonitor.FreshSampleRecorded | proxmox/migration-watcher/watcher.py:506-518 | a later sample is recorded with its total, the status becomes "Monitoring...", and the speed history grows from the second sample on by the estimator's speed |
| MigrationMonitor.NoSampleNoChange | proxmox/migration-watcher/watcher.py:504-532 | a line without a progress report changes nothing; one that does not convert raises ValueError |
| MigrationMonitor.FollowIgnoresRest | proxmox/migration-watcher/watcher.py:524-526 | once a verdict or an error ends the run, what follows in the log is never read |
| MigrationMonitor.TimesIncrease | proxmox/migration-watcher/watcher.py:506-509 | accepted sample times strictly increase over the whole run, one amount per time |
| MigrationMonitor.DisplaySucceeds | proxmox/migration-watcher/watcher.py:520-522 | the refresh in the loop never raises: a zero total never reaches the estimator with two samples |
| MigrationMonitor.CheckMarkers | proxmox/migration-watcher/watcher.py:493-502 | the two marker tests compute the verdict specified above |
| MigrationMonitor.HandleLine | proxmox/migration-watcher/watcher.py:489-518 | the loop body for one non-empty line does what the specification of one line says |
| MigrationMonitor.ReadOne | proxmox/migration-watcher/watcher.py:481-518 | one read either moves on with the run unchanged in meaning, or ends the batch with the status the run ends with |
| MigrationMonitor.ReadBatch | proxmox/migration-watcher/watcher.py:480-518 | up to five reads, stopping at a verdict, the end of the log or an exception, each ending agreeing with the whole run |
| MigrationMonitor.MonitorLog | proxmox/migration-watcher/watcher.py:471-534 | the state and the final status message are those of the whole run, and the block is drawn |
| MigrationMonitor.Candidates | proxmox/migration-watcher/watcher.py:419-422 | the candidates are ongoing qmigrate tasks with a node field |
| MigrationMonitor.Select | proxmox/migration-watcher/watcher.py:424-446 | no candidate gives no task; a single one is picked; among several, a reply in range picks that one and any other is an invalid selection |
| MigrationMonitor.PrintTaskList | proxmox/migration-watcher/watcher.py:435-437 | the loop prints the numbered listing of the candidates |
| MigrationMonitor.SelectTask | proxmox/migration-watcher/watcher.py:419-446 | the selection and the text printed are the specified ones |
| MigrationMonitor.WatchTask | proxmox/migration-watcher/watcher.py:453-543 | the text opens with the log announcement; a negative plot width crashes; otherwise it ends with the summary of the run |
| MigrationMonitor.Summary | proxmox/migration-watcher/watcher.py:385-407 | the summary opens with a blank line when the dashboard was drawn, then the 70-dash rule; it ends with "Final Status: " and the status, the "Log file was: " line only when there is a path, and the closing rule |
| MigrationMonitor.SummaryLineCount | proxmox/migration-watcher/watcher.py:385-407 | with no newline inside the VM id, node, status or path, the summary is four lines, five with the log path, plus the optional leading blank line |
| MigrationMonitor.RunSelected | proxmox/migration-watcher/watcher.py:448-543 | a task without a log prints the error and stops; otherwise the run is watched and summarised |
| MigrationMonitor.MigrationMain | proxmox/migration-watcher/watcher.py:410-543 | the output starts with the selection text; no selection prints only that; a missing log ends with its error; a watched run ends with its summary |
| UsageCosts.UnpricedModel | openai-usage/src/api_usage.py:313-318 | a model without prices costs nothing, and only "" and "unknown" go without a warning |
| UsageCosts.CostEntries | openai-usage/src/api_usage.py:320-333 | for a priced model each cost is present exactly when both the usage count and the price are, and is the count over 1000 times the price for tokens, and minutes times the dollar price times 100 for audio |
| UsageCosts.WindowOrder | openai-usage/src/api_usage.py:364-391 | with both days given the window is refused exactly when the start day is after the end day, and otherwise covers whole days |
| UsageCosts.Kept | openai-usage/src/api_usage.py:443-450 | no more results are kept than the bucket holds |
| UsageCosts.KeptExactly | openai-usage/src/api_usage.py:443-450 | a result is kept exactly when its key is known, and then with the key's name and its costs |
| UsageCosts.KeptKnown | openai-usage/src/api_usage.py:443-450 | every kept result has a known key and that key's name |
| UsageCosts.CollectDays | openai-usage/src/api_usage.py:438-442 | every bucket's day is in the dictionary, even when none of its results is kept, and nothing else is added |
| UsageCosts.CollectAppends | openai-usage/src/api_usage.py:438-450 | a day's list is what it held, followed by the kept results of each of its buckets in order |
| UsageCosts.KeepResults | openai-usage/src/api_usage.py:443-450 | the inner loop keeps exactly the specified results of one bucket |
| UsageCosts.CollectBuckets | openai-usage/src/api_usage.py:424-450 | the bucket loop files every kept result under its bucket's day, page by page |
| UsageCosts.FetchUsageDetails | openai-usage/src/api_usage.py:336-469 | a reversed window is refused before anything is fetched; otherwise the result is the buckets of all pages collected in order |
| UsageDisplay.ProjectName | openai-usage/src/api_usage.py:571-684 | a mapped project shows its name, any other its id |
| UsageDisplay.SortKeyParts | openai-usage/src/api_usage.py:554-605 | the key holds one value per user criterion in the user's order (an unknown criterion gives ""), then the values of the fixed criteria the user did not name |
| UsageDisplay.RemainingSpec | openai-usage/src/api_usage.py:592-603 | exactly the fixed criteria absent from the user's list are added, in the fixed order |
| UsageDisplay.DefaultKey | openai-usage/src/api_usage.py:590-605 | without criteria the key is (project name, day, key name, model) |
| UsageDisplay.KeyLength | openai-usage/src/api_usage.py:586-603 | the key has one part per user criterion plus one per fixed criterion left out |
| UsageDisplay.CriteriaSplit | openai-usage/src/api_usage.py:586-603 | distinct criteria taken from the fixed list and the ones they leave out add up to the fixed list |
| UsageDisplay.FourPartKey | openai-usage/src/api_usage.py:586-603 | distinct valid criteria always give a four-part key |
| UsageDisplay.SortKeyTuple | openai-usage/src/api_usage.py:554-605 | the two loops build exactly the specified key |
| UsageDisplay.UserKeyParts | openai-usage/src/api_usage.py:586-588 | the first loop gives the values of the user's criteria, in order |
| UsageDisplay.RemainingKeyParts | openai-usage/src/api_usage.py:592-603 | the second loop gives the values of the fixed criteria the user did not name |
| UsageDisplay.DisplayResults | openai-usage/src/api_usage.py:608-743 | the table is the sorted rows walked once, closing a group whenever its id changes, then the grand total; no usage gives the "no data" message |
| UsageDisplay.WalkRows | openai-usage/src/api_usage.py:671-722 | the loop over the sorted rows ends in the state the specification of the walk gives |
| UsageDisplay.VisitRow | openai-usage/src/api_usage.py:672-722 | one pass of the loop body is one step of the walk |
| UsageDisplay.StepShape | openai-usage/src/api_usage.py:691-722 | one row either opens a new group after a subtotal and a divider, or stays in the current group; the grand total grows by the row's total |
| UsageDisplay.WalkGrand | openai-usage/src/api_usage.py:709-711 | along the loop the grand total is the sum of the row totals, and the group is the last row's |
| UsageDisplay.WalkSubtotals | openai-usage/src/api_usage.py:691-711 | along the loop the subtotals written and the open group's total make up the grand total |
| UsageDisplay.WalkData | openai-usage/src/api_usage.py:713-722 | along the loop the data rows are the items' rows in order |
| UsageDisplay.WalkRuns | openai-usage/src/api_usage.py:691-702 | one subtotal is written per change of group |
| UsageDisplay.CountStep | openai-usage/src/api_usage.py:691-702 | a step writes a subtotal exactly when the group id changes |
| UsageDisplay.TableTotals | openai-usage/src/api_usage.py:608-743 | a non-empty table ends with the last group's subtotal, a divider and the grand total; the grand total is the sum of all rows whatever the order, the subtotals add up to it, there is one subtotal per run of equal group ids, and the data rows are the sorted items' rows |
| UsageDisplay.FinishedTallies | openai-usage/src/api_usage.py:725-741 | the closing rows add the open group's subtotal, a divider and the grand total, and no data row |
| UsageDisplay.SortedTotal | openai-usage/src/api_usage.py:637-638 | sorting does not change the sum of the row totals |
| UsageDisplay.SortedNonEmpty | openai-usage/src/api_usage.py:637-638 | sorting keeps every item |
| Sorting.StrBelowTotal | openai-usage/src/api_usage.py:637-638 | string order as Python compares: any two different strings are ordered one way |
| Sorting.KeyBelowTransitive | openai-usage/src/api_usage.py:637-638 | tuple order as Python compares is transitive |
| Sorting.InsertStable | openai-usage/src/api_usage.py:637-638 | inserting keeps the order among the entries of each key, the new one last among its own |
| Sorting.SortPermutes | openai-usage/src/api_usage.py:637-638 | the sort returns a permutation of its input |
| Sorting.SortOrders | openai-usage/src/api_usage.py:637-638 | the sort orders by key |
| Sorting.SortIsStable | openai-usage/src/api_usage.py:637-638 | the sort is stable: entries with equal keys keep their input order |
| SlideshowImages.ImageFiles | slideshow/src/slideshow/image_loader.py:37-42 | a walk entry is kept exactly when it is a file whose name ends, in any letter case, with a supported extension and does not start with a dot |
| SlideshowImages.LoadImagesSpec | slideshow/src/slideshow/image_loader.py:19-51 | a folder that is not a directory gives no images; otherwise the result holds exactly the image files of the walk, as often as the walk yields them, ordered by path |
| SlideshowImages.LoadImagesStrictlyOrdered | slideshow/src/slideshow/image_loader.py:48-51 | distinct paths come out in strictly increasing path order |
| SlideshowImages.ShuffleImages | slideshow/src/slideshow/image_loader.py:53-76 | no images give ([], 0); otherwise the current image comes first, the new index is 0, and the list is a rearrangement of the old one |
| SlideshowImages.SortByTimePermutes | slideshow/src/slideshow/image_loader.py:94 | sorting by time returns a rearrangement of the images |
| SlideshowImages.SortByTimeOrdered | slideshow/src/slideshow/image_loader.py:94 | sorting by time orders by modification time, oldest first when ascending, newest first otherwise |
| SlideshowImages.SortByTimeStable | slideshow/src/slideshow/image_loader.py:94 | images with equal times keep their relative order, in either direction |
| SlideshowImages.SortImagesByTimeSpec | slideshow/src/slideshow/image_loader.py:78-101 | the result is a rearrangement of the input; a file without a time leaves the list as it was; otherwise it is ordered by time in the asked direction and stable |
| SlideshowImages.Candidates | slideshow/src/slideshow/image_loader.py:126-133 | the indices chosen for loading are in range and not cached |
| SlideshowImages.CandidateSteps | slideshow/src/slideshow/image_loader.py:127-133 | every candidate is one of the next `count` images, and there are at most `count` of them |
| SlideshowImages.NoWrapWithoutLoop | slideshow/src/slideshow/image_loader.py:132-133 | without looping, before the last image, the scan does not wrap round |
| SlideshowImages.LastImageWithoutLoop | slideshow/src/slideshow/image_loader.py:128-133 | without looping, at the last image, the scan takes one step, which wraps round to the first image |
| SlideshowImages.PreloadImages | slideshow/src/slideshow/image_loader.py:103-174 | the loops compute the specified cache: load the candidates, then evict what is outside the window |
| SlideshowImages.CollectCandidates | slideshow/src/slideshow/image_loader.py:127-133 | the first loop picks exactly the specified candidates |
| SlideshowImages.LoadCandidates | slideshow/src/slideshow/image_loader.py:136-160 | the loading loop caches what decodes and drops what does not |
| SlideshowImages.KeysToKeep | slideshow/src/slideshow/image_loader.py:163-167 | the window loop keeps every index within twice `count` of the current one, either way, wrapping round |
| SlideshowImages.Evict | slideshow/src/slideshow/image_loader.py:169-172 | the eviction loop leaves the cache restricted to the window |
| SlideshowImages.PreloadWithinWindow | slideshow/src/slideshow/image_loader.py:162-174 | after preloading every cached index is in range and within the window |
| SlideshowImages.PreloadKeepsCached | slideshow/src/slideshow/image_loader.py:130-172 | a cached picture inside the window stays, unchanged |
| SlideshowImages.PreloadLoadsCandidates | slideshow/src/slideshow/image_loader.py:136-160 | a candidate is cached afterwards exactly when its file decodes, with the decoded picture; nothing else is added |
| SlideshowImages.PreloadKeepsMatching | slideshow/src/slideshow/image_loader.py:103-174 | a cache whose pictures match their images still matches after preloading |
| SlideshowFavorites.SortIntsSpec | slideshow/src/slideshow/favorites.py:50-110 | `sorted` on indices returns its input rearranged in non-decreasing order |
| SlideshowFavorites.SortedUnique | slideshow/src/slideshow/favorites.py:50-110 | two sorted lists with the same elements are equal, so the sorted result is determined by its contents |
| SlideshowFavorites.SortSorted | slideshow/src/slideshow/favorites.py:110 | sorting an already sorted list changes nothing |
| SlideshowFavorites.Dedup | slideshow/src/slideshow/favorites.py:83 | `set` keeps every value and only once |
| SlideshowFavorites.SortedSet | slideshow/src/slideshow/favorites.py:83 | the distinct values, strictly increasing |
| SlideshowFavorites.InRange | slideshow/src/slideshow/favorites.py:48-80 | the filter keeps exactly the indices in [0, n), each as often as it occurs |
| SlideshowFavorites.ParseLines | slideshow/src/slideshow/favorites.py:46 | only lines of digits, once stripped, are read, and they give non-negative numbers |
| SlideshowFavorites.LoadFavoritesSpec | slideshow/src/slideshow/favorites.py:18-56 | no file or no images gives no favorites; otherwise every in-range number on a line of its own, sorted, as often as it occurs |
| SlideshowFavorites.SavedIndices | slideshow/src/slideshow/favorites.py:80-84 | the indices written are the in-range favorites, strictly increasing |
| SlideshowFavorites.SaveFavorites | slideshow/src/slideshow/favorites.py:58-87 | something is written exactly when the folder exists or can be created |
| SlideshowFavorites.ParseLinesOf | slideshow/src/slideshow/favorites.py:46-84 | reading back the lines written for non-negative indices gives those indices |
| SlideshowFavorites.SaveLoadRoundTrip | slideshow/src/slideshow/favorites.py:18-87 | loading what was saved gives the in-range favorites, sorted, without repeats |
| SlideshowFavorites.ToggleFavorite | slideshow/src/slideshow/favorites.py:89-110 | the list is changed in place, the first occurrence removed or the index appended, and a sorted copy of it returned |
| SlideshowFavorites.ToggleFlips | slideshow/src/slideshow/favorites.py:103-110 | toggling flips membership of the index when it occurs at most once, and leaves every other index's count alone |
| SlideshowFavorites.ToggleTwice | slideshow/src/slideshow/favorites.py:89-110 | on a list without repeats toggling twice gives the list back, sorted |
| SlideshowApp.Initial | slideshow/src/slideshow/app.py:28-60 | auto-stop is on exactly when a delay is given (the default delay otherwise), the stop time is now plus the delay when on and 0.0 otherwise, and the lists, the index and the cache start empty, playing and looping |
| SlideshowApp.ImageSlideshowApp.constructor | slideshow/src/slideshow/app.py:28-60 | the fields start as the initial state says |
| SlideshowApp.Succ | slideshow/src/slideshow/display.py:212 | the next frame wraps round to the first after the last |
| SlideshowApp.AfterGifFrame | slideshow/src/slideshow/display.py:191-217 | showing a frame touches only the animation and scheduling fields |
| SlideshowApp.GifFrameStep | slideshow/src/slideshow/display.py:199-217 | no frames or an index past them change nothing; otherwise the index moves on modulo the frame count and exactly one callback is scheduled: the next image when the timer runs and the index wrapped to 0, the next frame otherwise |
| SlideshowApp.GifShowsEveryFrameFirst | slideshow/src/slideshow/display.py:212-217 | with the timer running from the first frame, the next image is scheduled only after every frame has been shown |
| SlideshowApp.ImageSlideshowApp.AnimateGifNextFrame | slideshow/src/slideshow/display.py:191-217 | the fields are left as the frame step says |
| SlideshowApp.FrameDurations | slideshow/src/slideshow/app.py:157-166 | one duration per frame that could be made into a photo, 100 ms when the frame has none |
| SlideshowApp.CollectDurations | slideshow/src/slideshow/app.py:159-166 | the frame loop collects exactly those durations |
| SlideshowApp.Displayed | slideshow/src/slideshow/app.py:168-174 | putting a picture on the canvas changes only the photo and the animation fields |
| SlideshowApp.Animating | slideshow/src/slideshow/app.py:168-170 | starting an animation changes only the animation fields |
| SlideshowApp.Presented | slideshow/src/slideshow/app.py:141-193 | after the picture is found the photo either stays or becomes that picture, and the list, favorites and settings are kept |
| SlideshowApp.Wrap | slideshow/src/slideshow/app.py:108 | `index % n` lands in [0, n): an index in range is kept, n gives 0, and a negative index counts from the end |
| SlideshowApp.AfterShowImage | slideshow/src/slideshow/app.py:92-193 | no images change nothing; otherwise the index lands in range, the list, favorites and settings are kept, and a stopped timer stays stopped |
| SlideshowApp.ShowImageLands | slideshow/src/slideshow/app.py:108-139 | with the picture available, the index lands on `index` modulo the list's length and the cache holds that picture there; a cached picture is used without reopening the file |
| SlideshowApp.ShowImageSchedules | slideshow/src/slideshow/app.py:144-193 | on a laid-out canvas the advance is scheduled exactly when the timer runs and no animation frame is pending |
| SlideshowApp.ShowImageSkipsFailure | slideshow/src/slideshow/app.py:180-183 | a file that fails to open makes `show_image` go on as `next_image_auto` |
| SlideshowApp.ShowImageKeepsCache | slideshow/src/slideshow/app.py:119-188 | a cache whose pictures are the decoded files at their indices stays so, and a picture put on the canvas is the current image's |
| SlideshowApp.ImageSlideshowApp.ShowImage | slideshow/src/slideshow/app.py:92-193 | the fields are left as `show_image` is specified to leave them |
| SlideshowApp.ImageSlideshowApp.Select | slideshow/src/slideshow/app.py:105-117 | going to the index cancels both pending callbacks |
| SlideshowApp.ImageSlideshowApp.Present | slideshow/src/slideshow/app.py:141-193 | the rest of `show_image` leaves the fields as specified |
| SlideshowApp.ImageSlideshowApp.Display | slideshow/src/slideshow/app.py:168-174 | the picture goes on the canvas as specified |
| SlideshowApp.ImageSlideshowApp.Animate | slideshow/src/slideshow/app.py:168-170 | the animation starts at its first frame |
| SlideshowApp.AfterNextImageAuto | slideshow/src/slideshow/app.py:195-206 | the list, favorites and settings are kept, the index stays in range, and a stopped timer stays stopped |
| SlideshowApp.NextImageAutoKeepsCache | slideshow/src/slideshow/app.py:195-206 | advancing keeps the cache matching the files |
| SlideshowApp.NextImageAutoMoves | slideshow/src/slideshow/app.py:202-206 | without looping at the last image the timer stops and nothing moves; otherwise it lands on the next index, wrapping from the last to the first |
| SlideshowApp.ImageSlideshowApp.NextImageAuto | slideshow/src/slideshow/app.py:195-206 | the fields are left as specified |
| SlideshowApp.StepMoves | slideshow/src/slideshow/app.py:208-226 | moving by hand stops the timer; with the picture available it lands on the index plus the offset, wrapped round, and schedules no advance |
| SlideshowApp.ImageSlideshowApp.NextImage | slideshow/src/slideshow/app.py:208-211 | a step of +1 |
| SlideshowApp.ImageSlideshowApp.PreviousImage | slideshow/src/slideshow/app.py:213-216 | a step of -1 |
| SlideshowApp.ImageSlideshowApp.JumpForwardTen | slideshow/src/slideshow/app.py:218-221 | a step of +10 |
| SlideshowApp.ImageSlideshowApp.JumpBackwardTen | slideshow/src/slideshow/app.py:223-226 | a step of -10 |
| SlideshowApp.ToggleTimerFlips | slideshow/src/slideshow/app.py:228-237 | the timer flips; resuming schedules the advance after the delay, pausing cancels what was pending, and nothing else changes |
| SlideshowApp.ImageSlideshowApp.ToggleTimer | slideshow/src/slideshow/app.py:228-237 | the fields are left as specified |
| SlideshowApp.ToggleAutoStopFlips | slideshow/src/slideshow/app.py:239-248 | auto-stop flips; enabling sets the stop time to now plus the delay, disabling resets it to 0.0, and nothing else changes |
| SlideshowApp.ImageSlideshowApp.ToggleAutoStop | slideshow/src/slideshow/app.py:239-248 | the fields are left as specified |
| SlideshowApp.AfterSetup | slideshow/src/slideshow/app.py:68-90 | the list is the folder's images; with none nothing more changes; otherwise the favorites are loaded for them, the window goes full screen and the first image is shown |
| SlideshowApp.ImageSlideshowApp.Setup | slideshow/src/slideshow/app.py:68-90 | the fields are left as specified |
| SlideshowApp.ImageSlideshowApp.Load | slideshow/src/slideshow/app.py:76-87 | the lists and window flags are set as found |
| SlideshowApp.ShuffleShowsStalePicture | slideshow/src/slideshow/app.py:250-253 | as written, shuffling with a cache keyed by index shows the old first image's picture for the new first image |
| SlideshowApp.ShuffleShowsCurrent | slideshow/src/slideshow/app.py:250-253 | with the cache emptied, shuffling gives a permutation with the current image first, and the canvas shows that image |
| SlideshowApp.ImageSlideshowApp.Shuffle | slideshow/src/slideshow/app.py:250-253 | the fields are left as the corrected shuffle says |
| SlideshowApp.SortShowsStalePicture | slideshow/src/slideshow/app.py:255-264 | as written, sorting with a cache keyed by index shows the wrong picture for the new first image |
| SlideshowApp.SortShowsFirst | slideshow/src/slideshow/app.py:255-264 | with the cache emptied, sorting orders the list by time, oldest first (unchanged when a file is gone), and the canvas shows the image now first |
| SlideshowApp.ImageSlideshowApp.Sort | slideshow/src/slideshow/app.py:255-264 | the fields are left as the corrected sort says |
| SlideshowApp.ReorderKeepsCache | slideshow/src/slideshow/app.py:250-264 | after a reordering with the cache emptied, the cache matches the files again |
| SlideshowApp.ImageSlideshowApp.Reorder | slideshow/src/slideshow/app.py:250-264 | the list is replaced, the cache emptied and the index shown |
| SlideshowApp.AfterToggleFavorite | slideshow/src/slideshow/app.py:266-269 | the favorites stay sorted and the current index's membership flips when it occurs at most once |
| SlideshowApp.ImageSlideshowApp.ToggleFavorite | slideshow/src/slideshow/app.py:266-269 | the fields are left as specified |
| SlideshowApp.AfterResize | slideshow/src/slideshow/app.py:314-330 | only the pending redraw changes, only for an event on the window with a size above 50 by 50, and then a redraw is scheduled after 250 ms |
| SlideshowApp.ImageSlideshowApp.OnResize | slideshow/src/slideshow/app.py:314-330 | the fields are left as specified |
| SlideshowControls.SpeedSteps | slideshow/src/slideshow/controls.py:112-120 | speeding up shortens the delay by 0.5 s but never below 0.1 s, slowing down lengthens it by 0.5 s, and nothing else changes |
| SlideshowControls.SpeedRoundTrip | slideshow/src/slideshow/controls.py:112-120 | slowing down then speeding up restores any delay of at least 0.1 s |
| SlideshowControls.IncreaseSpeed | slideshow/src/slideshow/controls.py:112-115 | the fields are left as the speed step says |
| SlideshowControls.DecreaseSpeed | slideshow/src/slideshow/controls.py:117-120 | the fields are left as the slow-down step says |
| SlideshowControls.BrightnessSteps | slideshow/src/slideshow/controls.py:140-148 | each key moves the brightness by 0.1 towards its bound (3.0 or 0.1) and stops there; the list, favorites and other settings are kept |
| SlideshowControls.BrightnessReloads | slideshow/src/slideshow/controls.py:143-148 | the brightness keys re-show the current image bypassing the cache: the freshly decoded picture is shown and replaces the cached one |
| SlideshowControls.IncreaseBrightness | slideshow/src/slideshow/controls.py:140-143 | the fields are left as specified |
| SlideshowControls.DecreaseBrightness | slideshow/src/slideshow/controls.py:145-148 | the fields are left as specified |
| SlideshowControls.FlipFlipsOne | slideshow/src/slideshow/controls.py:122-153 | a toggle flips its own flag and no other, leaves everything else alone, and a second press undoes it |
| SlideshowControls.ToggleLoop | slideshow/src/slideshow/controls.py:122-125 | flips the loop flag |
| SlideshowControls.ToggleFullscreen | slideshow/src/slideshow/controls.py:130-133 | flips the full-screen flag |
| SlideshowControls.ToggleAlwaysOnTop | slideshow/src/slideshow/controls.py:135-138 | flips the always-on-top flag |
| SlideshowControls.ToggleShowFullHud | slideshow/src/slideshow/controls.py:150-153 | flips the full-HUD flag |
| SlideshowControls.ScrollDirection | slideshow/src/slideshow/controls.py:75-79 | scrolling up goes back, down goes forward, up winning when an event says both; an event saying neither changes nothing |
| SlideshowControls.OnScroll | slideshow/src/slideshow/controls.py:75-79 | the fields are left as specified |
| SlideshowControls.ClickToggles | slideshow/src/slideshow/controls.py:81-86 | a click flips the timer exactly when it lands above the bottom 100 pixels |
| SlideshowControls.OnClick | slideshow/src/slideshow/controls.py:81-86 | the fields are left as specified |
| SlideshowControls.ParseInt | slideshow/src/slideshow/controls.py:100 | `int()` reads a number only from text that is not blank once stripped |
| SlideshowControls.ParseIntRoundTrip | slideshow/src/slideshow/controls.py:100 | reading back the decimal text of a number gives the number |
| SlideshowControls.ParseIntRejects | slideshow/src/slideshow/controls.py:100-110 | text holding a letter or other symbol is not a number |
| SlideshowControls.JumpLands | slideshow/src/slideshow/controls.py:98-108 | a number from 1 to the number of images stops the timer and, with the picture available, shows that image one position lower; any other number only warns |
| SlideshowControls.JumpIgnores | slideshow/src/slideshow/controls.py:88-110 | no images only inform; a cancelled or empty prompt changes nothing; text that is not a number shows an error and changes nothing |
| SlideshowControls.JumpToImage | slideshow/src/slideshow/controls.py:88-110 | the fields and the dialog are as specified |
| SlideshowDisplay.AtLeastOne | slideshow/src/slideshow/display.py:53-54 | `max(1, n)` is at least 1 and n, and n when n is at least 1 |
| SlideshowDisplay.ResizeDims | slideshow/src/slideshow/display.py:35-42 | a target or source dimension that is not positive keeps the original size |
| SlideshowDisplay.RatioOrder | slideshow/src/slideshow/display.py:44-48 | comparing the two aspect ratios is comparing cross products |
| SlideshowDisplay.ResizeQuotients | slideshow/src/slideshow/display.py:44-54 | the truncated real-number computation is integer division |
| SlideshowDisplay.ResizeWider | slideshow/src/slideshow/display.py:48-54 | on exact reals, a relatively wider image takes the full width, and the largest height (at least 1) its aspect ratio allows |
| SlideshowDisplay.ResizeTaller | slideshow/src/slideshow/display.py:50-54 | on exact reals, any other image takes the full height, and the largest width (at least 1) its aspect ratio allows |
| SlideshowDisplay.ResizeFits | slideshow/src/slideshow/display.py:23-65 | a valid resize is at least 1 by 1, fits the target and fills one of its sides |
| SlideshowHud.ShortcutTextLines | slideshow/src/slideshow/hud.py:20-34 | the help text is its five fixed lines joined by newlines, from the heading to the line ending with how to quit |
| SlideshowHud.ShortcutLinesLack | slideshow/src/slideshow/hud.py:27-33 | no line of the help text holds a newline |
| SlideshowHud.RemainingSeconds | slideshow/src/slideshow/hud.py:66 | the whole seconds left until the stop time, never negative |
| SlideshowHud.AutoStopLabelSays | slideshow/src/slideshow/hud.py:64-67 | the label says which way auto-stop is, and carries a seconds count exactly when it is on with a stop time set |
| SlideshowHud.FractionReadsBack | slideshow/src/slideshow/hud.py:73 | "x/y" reads back as x and y |
| SlideshowHud.CounterReadsBack | slideshow/src/slideshow/hud.py:69-75 | for a valid index the counter reads back as the position from 1 and the number of images, with a star exactly for a favorite; otherwise it says "No images" |
| SlideshowHud.ShortName | slideshow/src/slideshow/hud.py:77-80 | a name over 40 characters becomes its first 37 and "...", a shorter one is kept |
| SlideshowHud.NonEmpty | slideshow/src/slideshow/hud.py:96 | `filter(None, ...)` keeps the non-empty lines, in order |
| SlideshowHud.StatusLineOpens | slideshow/src/slideshow/hud.py:62-87 | the status line opens with the play state |
| SlideshowHud.PlayingPrefix | slideshow/src/slideshow/hud.py:62 | the text opens with "Playing" exactly when the timer runs |
| SlideshowHud.HudTextLines | slideshow/src/slideshow/hud.py:85-100 | on a large enough canvas the text is the status and settings lines, then the help when the full HUD is on |
| SlideshowHud.HudShows | slideshow/src/slideshow/hud.py:36-100 | the HUD is drawn exactly on a canvas at least 200 by 60; its text opens with "Playing" exactly when the timer runs, has the settings line after the status line, and ends with the help exactly when the full HUD is on |
| SlideshowHud.HudEnding | slideshow/src/slideshow/hud.py:91-96 | the help ends the text only when it was appended |
| SlideshowLegacyApp.LegacySlideshowApp.constructor | slideshow/src/slideshow/__main__.py:59-123 | the fields start as the initial legacy state: playing, looping, auto-stop off, delay and brightness as given, sorting ascending |
| SlideshowLegacy.Failed | slideshow/src/slideshow/__main__.py:596-601 | an unexpected error only schedules the next image soon, and only when playing |
| SlideshowLegacyApp.LegacySlideshowApp.Fail | slideshow/src/slideshow/__main__.py:596-601 | the fields are left as specified |
| SlideshowLegacy.Painted | slideshow/src/slideshow/__main__.py:537-578 | painting keeps the list, index, favorites and timer; on a laid-out canvas a still picture, or an animation whose frames render, goes on the canvas |
| SlideshowLegacyApp.LegacySlideshowApp.Paint | slideshow/src/slideshow/__main__.py:537-578 | the fields are left as specified |
| SlideshowLegacyApp.RenderFrames | slideshow/src/slideshow/__main__.py:559-566 | the frame loop finds whether every frame renders |
| SlideshowLegacy.Normalized | slideshow/src/slideshow/__main__.py:514-521 | an index outside the list becomes 0, one inside is kept |
| SlideshowLegacy.Removed | slideshow/src/slideshow/__main__.py:582 | `pop(i)` drops the image at i and shifts the later ones down |
| SlideshowLegacy.Dropped | slideshow/src/slideshow/__main__.py:580-586 | removing the current image shortens the list by one and keeps the settings, timer and photo |
| SlideshowLegacyApp.LegacySlideshowApp.DropCurrent | slideshow/src/slideshow/__main__.py:580-586 | the fields are left as the corrected removal says |
| SlideshowLegacy.Cleared | slideshow/src/slideshow/__main__.py:499-521 | the pending callbacks are cancelled and the index set, nothing else changes |
| SlideshowLegacy.Shown | slideshow/src/slideshow/__main__.py:480-610 | with the corrected removal: showing keeps the settings, never lengthens the list, and a stopped timer stays stopped |
| SlideshowLegacy.ShownAt | slideshow/src/slideshow/__main__.py:521-610 | with the corrected removal: the rest of showing keeps the same promises |
| SlideshowLegacyApp.LegacySlideshowApp.ShowImage | slideshow/src/slideshow/__main__.py:480-610 | with the corrected removal: the fields are left as `Shown` specifies |
| SlideshowLegacyApp.LegacySlideshowApp.ShowCurrent | slideshow/src/slideshow/__main__.py:521-610 | with the corrected removal: the fields are left as `ShownAt` specifies |
| SlideshowLegacyApp.LegacySlideshowApp.DropAndShowNext | slideshow/src/slideshow/__main__.py:580-595 | with the corrected removal: the current image leaves the list and the one now at `min(index, len - 1)` is shown; with none left the application closes |
| SlideshowLegacy.ShownLands | slideshow/src/slideshow/__main__.py:514-578 | a picture that can be found is shown at the requested index (0 for one outside the list), nothing is removed, and it goes on a laid-out canvas |
| SlideshowLegacy.ShownSchedules | slideshow/src/slideshow/__main__.py:603-610 | after a still picture the advance is scheduled after the delay when playing, nothing when paused; an animation schedules its second frame |
| SlideshowLegacy.ShownStopsWhenDue | slideshow/src/slideshow/__main__.py:507-512 | once the auto-stop time has come, showing only stops the timer |
| SlideshowLegacy.ShownDropsMissing | slideshow/src/slideshow/__main__.py:580-595 | a file that is gone leaves the list, its favorite is dropped and those above it move down, and the image now at `min(i, len - 1)` is shown |
| SlideshowLegacy.ShownFails | slideshow/src/slideshow/__main__.py:596-601 | a file failing with another error changes only the retry callback |
| SlideshowLegacy.ShownFound | slideshow/src/slideshow/__main__.py:525-535 | a found picture is painted, after being cached when it came from the file |
| SlideshowLegacy.ReindexedMembers | slideshow/src/slideshow/__main__.py:586 | after removal at i favorites below i stay, i goes, and those above move down by one |
| SlideshowLegacy.ReindexedCount | slideshow/src/slideshow/__main__.py:586 | only the entries naming i are lost |
| SlideshowLegacy.ReindexedSorted | slideshow/src/slideshow/__main__.py:586 | sorted favorites stay sorted |
| SlideshowLegacy.ReindexKeepsPaths | slideshow/src/slideshow/__main__.py:582-586 | after the removal the favorites name the same files as before, less the removed one |
| SlideshowLegacy.DropLeavesStalePicture | slideshow/src/slideshow/__main__.py:580-595 | as written, the cache is not shifted, so the next image shown after a removal can be the picture of the image before it |
| SlideshowLegacy.DroppedKeepsCache | slideshow/src/slideshow/__main__.py:580-586 | with the cache shifted along with the list, a cache that matched the files still does |
| SlideshowLegacy.ShownKeepsCache | slideshow/src/slideshow/__main__.py:480-610 | showing keeps a matching cache matching, and a picture put on the canvas is the current image's |
| SlideshowLegacy.MissingClosesLast | slideshow/src/slideshow/__main__.py:588-592 | dropping the only image closes the application |
| SlideshowLegacyApp.LegacySlideshowApp.PreloadNextImages | slideshow/src/slideshow/__main__.py:398-454 | no images change nothing; otherwise the cache becomes the specified preload of the candidates with eviction outside the window |
| SlideshowLegacyApp.CollectLegacyCandidates | slideshow/src/slideshow/__main__.py:410-420 | the candidate loop picks the same indices as the package version; stopping at `count` indices only happens at the last step |
| SlideshowLegacyApp.LoadLegacyCandidates | slideshow/src/slideshow/__main__.py:422-435 | the loading loop caches what decodes; the skip of cached indices changes nothing |
| SlideshowLegacy.LegacyToggleTimerFlips | slideshow/src/slideshow/__main__.py:933-968 | pausing leaves nothing scheduled; resuming on a still picture stays on the current image and schedules the advance after the delay |
| SlideshowLegacyApp.LegacySlideshowApp.ToggleTimer | slideshow/src/slideshow/__main__.py:933-968 | the fields are left as specified |
| SlideshowLegacy.StepIndices | slideshow/src/slideshow/__main__.py:991-1021 | `(i + 1) % n` and `(i - 1 + n) % n` step forward and back with wrap-around |
| SlideshowLegacy.LegacyNextMoves | slideshow/src/slideshow/__main__.py:971-997 | next stops the timer; without looping it stays on the last image, otherwise it moves one on, wrapping to the first |
| SlideshowLegacyApp.LegacySlideshowApp.NextImage | slideshow/src/slideshow/__main__.py:971-997 | the fields are left as specified |
| SlideshowLegacy.LegacyPreviousMoves | slideshow/src/slideshow/__main__.py:1000-1028 | previous stops the timer; without looping it stays on the first image, otherwise it moves one back, wrapping to the last |
| SlideshowLegacyApp.LegacySlideshowApp.PreviousImage | slideshow/src/slideshow/__main__.py:1000-1028 | the fields are left as specified |
| SlideshowLegacy.LegacyNextAutoMoves | slideshow/src/slideshow/__main__.py:908-930 | with no images, or at the last image without looping, the timer stops; otherwise the next image is shown, wrapping to the first |
| SlideshowLegacyApp.LegacySlideshowApp.NextImageAuto | slideshow/src/slideshow/__main__.py:908-930 | the fields are left as specified |
| SlideshowLegacy.RoundHalfEven | slideshow/src/slideshow/__main__.py:1039 | `round` gives the nearest integer, the even one on a tie |
| SlideshowLegacy.RoundTenth | slideshow/src/slideshow/__main__.py:1039-1055 | rounding to one decimal is within half a tenth |
| SlideshowLegacy.RoundTenthExact | slideshow/src/slideshow/__main__.py:1039-1055 | a whole number of tenths rounds to itself |
| SlideshowLegacy.LegacySpeedSteps | slideshow/src/slideshow/__main__.py:1031-1061 | the delay never drops below 0.1 s; from whole tenths each step is exact, a slower step undoes a faster one above 0.5 s, and a pending advance is rescheduled with the new delay |
| SlideshowLegacyApp.LegacySlideshowApp.IncreaseSpeed | slideshow/src/slideshow/__main__.py:1031-1045 | the fields are left as specified |
| SlideshowLegacyApp.LegacySlideshowApp.DecreaseSpeed | slideshow/src/slideshow/__main__.py:1048-1061 | the fields are left as specified |
| SlideshowLegacy.LegacyBrightnessSteps | slideshow/src/slideshow/__main__.py:1228-1255 | brightness stays within [0.1, 2.0] and from whole tenths moves one tenth per step |
| SlideshowLegacyApp.LegacySlideshowApp.IncreaseBrightness | slideshow/src/slideshow/__main__.py:1228-1240 | the fields are left as specified |
| SlideshowLegacyApp.LegacySlideshowApp.DecreaseBrightness | slideshow/src/slideshow/__main__.py:1243-1255 | the fields are left as specified |
| SlideshowLegacy.LegacyToggleFlips | slideshow/src/slideshow/__main__.py:229-249 | only the favorites change, and only for a valid current image; then they are sorted and the current index flips membership |
| SlideshowLegacyApp.LegacySlideshowApp.ToggleFavorite | slideshow/src/slideshow/__main__.py:229-249 | the fields are left as specified |
| SlideshowLegacy.IndicesInSpec | slideshow/src/slideshow/__main__.py:1292-1333 | the re-derived favorites are the positions of the favorited files, increasing |
| SlideshowLegacy.RegroupKeepsFavorites | slideshow/src/slideshow/__main__.py:1284-1296 | reordering keeps the set of favorited files; the new favorites are sorted, without repeats and in range; the cache is cleared and the index reset |
| SlideshowLegacyApp.LegacySlideshowApp.Regroup | slideshow/src/slideshow/__main__.py:1284-1295 | the fields are left as specified |
| SlideshowLegacy.LegacyShuffleShows | slideshow/src/slideshow/__main__.py:1270-1297 | after a shuffle with every file showable the list is a permutation and position 0 is shown with a matching cache |
| SlideshowLegacyApp.LegacySlideshowApp.ShuffleImages | slideshow/src/slideshow/__main__.py:1270-1297 | the fields are left as specified |
| SlideshowLegacy.LegacySortToggles | slideshow/src/slideshow/__main__.py:1300-1338 | sorting flips the sort direction exactly when it sorted, and shows from the old list ordered by creation time in the asked direction, favorites kept |
| SlideshowLegacyApp.LegacySlideshowApp.SortImages | slideshow/src/slideshow/__main__.py:1300-1338 | the fields are left as specified |
| SlideshowLegacy.ChunksSpec | slideshow/src/slideshow/__main__.py:1357-1361 | rows are chunks of at most k items joined; all but the last hold exactly k, and together they hold every item in order |
| SlideshowLegacy.LegacyShortcutLines | slideshow/src/slideshow/__main__.py:1341-1363 | the help text is four lines of four shortcuts each, in order, splitting back into exactly those lines |
| SlideshowLegacyApp.HudShortcutLines | slideshow/src/slideshow/__main__.py:1357-1361 | the loop builds exactly the rows |
| SlideshowLegacyApp.PySlice | slideshow/src/slideshow/__main__.py:1361 | a Python slice cuts the end back to the length |
| SlideshowLegacyApp.RowsFromStep | slideshow/src/slideshow/__main__.py:1359-1361 | one pass of the loop adds the next slice joined |
| SlideshowLegacyApp.HudShortcutText | slideshow/src/slideshow/__main__.py:1341-1363 | the method returns the specified help text |
| SlideshowLegacy.LaunchStarts | slideshow/src/slideshow/__main__.py:1485-1534 | a negative start index exits 1 with the error message; otherwise the slideshow starts at the start index when in range and at 0 otherwise, showing that image |
| SlideshowLegacy.LaunchShowsWrongImage | slideshow/src/slideshow/__main__.py:1513-1534 | as written, with `--shuffle` and start index 1, position 1 is current but position 0's picture is on the canvas |
| KsProcess.FzfArgv | ks/ks.py:488-533 | the picker runs as fzf with a fixed height and the caller's prompt |
| KsProcess.FzfInputLines | ks/ks.py:488-533 | items without line breaks reach fzf as exactly the lines it offers |
| KsProcess.FzfSelect | ks/ks.py:488-533 | nothing to choose from gives no choice without running fzf; status 0 gives the stripped output; status 1 or 130 gives no choice; a missing binary, an exception or any other status exits 1 |
| KsProcess.IterFzfPrompt | ks/src/ks/helpers.py:115 | the prompt passed to iterfzf is the caller's with "> " appended |
| KsProcess.IterFzfSelect | ks/src/ks/helpers.py:95-119 | a choice is returned exactly when there are items and the user chose, and it is the user's selection; it never exits |
| KsProcess.RunChecked | ks/ks.py:450-486 | a program that raises exits 1, and so does a non-zero status when checking; otherwise the status is returned with the streams exactly when captured |
| KsProcess.RunCaptured | ks/src/ks/helpers.py:43-93 | only a program that raises exits (status 1); otherwise the status and the streams, "" for streams not captured |
| KsProcess.RunWrappersAgree | ks/src/ks/helpers.py:43-93 | with checking off the two wrappers agree on when they exit and on what they return |
| KsProcess.RequireCommand | ks/src/ks/helpers.py:27-41 | a required binary missing from PATH exits 1 |
| KsCleanup.Registry.constructor | ks/src/ks/helpers.py:24-25 | the registry starts with no tasks and no calls |
| KsCleanup.Registry.Register | ks/src/ks/helpers.py:121-134 | registering appends the task and calls nothing |
| KsCleanup.Registry.RunCleanup | ks/src/ks/helpers.py:136-151 | one call per registered task, newest first, whatever each raises; the task list is left as it was |
| KsCleanup.RunOrderReverses | ks/src/ks/helpers.py:146 | the run order is the registration order reversed, position by position |
| KsCleanup.LaterRunsFirst | ks/src/ks/helpers.py:146 | tasks registered later run before every task registered earlier |
| KsCleanup.RunOrderPermutes | ks/src/ks/helpers.py:146 | every registered task is called exactly once per run |
| KsCleanup.FailuresIsolated | ks/src/ks/helpers.py:146-151 | a raising task stops nothing: the run calls exactly the tasks of its order |
| KsCleanup.RunTwiceReplays | ks/src/ks/helpers.py:136-154 | since the list is never emptied, two runs call every task twice, newest first each time |
| KsArgv.Prefix | ks/ks.py:737 | a slice `[:n]` is the first n characters, or all when shorter |
| KsArgv.SessionNameReadsBack | ks/ks.py:737-738 | the debug container name is "debug-", the target container, "-" and the UUID's first 8 characters, and reads back as those |
| KsArgv.PackageNameReadsBack | ks/src/ks/cli.py:214 | the packaged tool's name is "debug-", the pod, "-" and the UUID's first 6 hex digits, and reads back as those |
| KsArgv.ContextFlags | ks/ks.py:741-742 | the context pair is present exactly when a non-empty context is given |
| KsArgv.BuildSessionArgv | ks/ks.py:740-755 | the list built step by step is the specified command |
| KsArgv.SessionContextReadsBack | ks/ks.py:740-742 | the context flag is in the command exactly when a context was given, followed by it |
| KsArgv.SessionTargetReadsBack | ks/ks.py:743-746 | the namespace and target container follow their flags |
| KsArgv.SessionImageReadsBack | ks/ks.py:747 | the image follows its flag |
| KsArgv.SessionNameFlagReadsBack | ks/ks.py:749 | the debug container's name follows its flag |
| KsArgv.SessionArgvReadsBack | ks/ks.py:740-755 | read back, the command runs kubectl's debug on the chosen pod, with the namespace, target, image and name after their flags and the context flag exactly when given |
| KsArgv.BuildPackageArgv | ks/src/ks/cli.py:216-240 | the list built step by step is the specified command |
| KsArgv.BuildCommandTail | ks/src/ks/cli.py:232-240 | one leading "--" is popped, then "--" and the rest are appended when anything is left |
| KsArgv.PackageCommandReadsBack | ks/src/ks/cli.py:216-240 | everything after the command's first "--" is the user's command with one leading "--" dropped |
| KsArgv.SecondSeparatorKept | ks/src/ks/cli.py:235-236 | only one leading "--" is dropped; a second one reaches the debug container |
| KsArgv.DryRunLineSplits | ks/src/ks/cli.py:244-245 | when no word holds a space the printed line splits back into the command |
| KsSession.IndexOf | ks/ks.py:796 | `index` finds the first position of the word, or none |
| KsSession.CompletionPreCheckTable | ks/ks.py:794-818 | without `--completion` the program goes on; with it, a supported shell named next prints its script and exits 0, and a missing or unsupported shell exits 1 |
| KsSession.Lookup | ks/ks.py:118-221 | a key the cluster knows nothing about lists nothing |
| KsSession.ListingGuards | ks/ks.py:617-638 | no listing flag, no listing; pods without a namespace, or containers without namespace and pod, are refused when first; a listing needs the Kubernetes library |
| KsSession.KubeClient.constructor | ks/ks.py:54-98 | no client initialised yet |
| KsSession.KubeClient.Init | ks/ks.py:54-98 | a repeat call for the initialised context answers from the cache; a missing library fails; a failed load forgets the client and exits 1 except on a completion run |
| KsSession.InitCacheGuard | ks/ks.py:71-87 | a second call for the context last initialised neither loads nor changes anything; a successful load is what enables the cache |
| KsSession.DefaultContextNeverCached | ks/ks.py:71 | the default context (None) is never answered from the cache |
| KsSession.HandleApiException | ks/ks.py:248-270 | the hint is about permissions exactly for 403 and about names exactly for 404, and the program always exits 1 |
| KsSession.AskFor | ks/ks.py:669-695 | an empty list, no choice or an empty choice all exit 1; a value is never empty |
| KsSession.SelectTarget | ks/ks.py:660-695 | the choice step by step gives the specified target |
| KsSession.PickedLineHasPod | ks/ks.py:682 | a non-empty stripped line has a first word |
| KsSession.PodComesFromLine | ks/ks.py:677-682 | the pod chosen from a line is its first word |
| KsSession.SingleContainerAutoSelected | ks/ks.py:688-690 | a pod with a single container needs no choice |
| KsSession.GivenTargetUsed | ks/ks.py:660-695 | a target given in full is used as is, without fzf |
| KsSession.EmptyChoiceExits | ks/ks.py:671-687 | nothing to choose from exits 1 |
| KsSession.TargetExitsOne | ks/ks.py:669-695 | every way the choice can fail exits 1 |
| KsSession.LabelRemoval | ks/ks.py:727 | the cleanup registered removes the label from the chosen namespace |
| KsSession.SessionMain | ks/ks.py:559-818 | `main` step by step gives the specified run and registers its cleanups, calling none itself |
| KsSession.Launch | ks/ks.py:715-771 | the label step and the launch register the label's removal only when this run applied it |
| KsSession.SessionStatus | ks/ks.py:559-818 | the program ends with status 0 or 1 |
| KsSession.CleanupOnlyWhenLabelApplied | ks/ks.py:721-727 | the removal is registered exactly when the run reached a described target in a namespace that lacked the label and accepted it |
| KsSession.LaunchTargetsChoice | ks/ks.py:735-770 | a launch runs kubectl debug on the chosen target with a container named after the chosen container; a failed label apply does not stop it |
| KsSession.DryRunDoesNotLaunch | ks/ks.py:759-760 | a dry run never runs kubectl and ends with status 0 |
| KsSession.PathCheckOnlyInScript | ks/cli.py:137-144 | ks/cli.py checks only the Kubernetes library and the client before choosing, so its run does not depend on kubectl being on PATH; ks/ks.py exits 1 without it |
| KsPackage.GivenOrPicked | ks/src/ks/cli.py:166-171 | a value given is used as is, else the user's pick |
| KsPackage.SelectPackageTarget | ks/src/ks/cli.py:161-196 | the choice step by step gives the specified target |
| KsPackage.PackageMain | ks/src/ks/cli.py:48-255 | `main` gives the specified run, registers the label's removal when it applied it, and runs the cleanups itself only then and only when it reached its end |
| KsPackage.PackageLaunchStep | ks/src/ks/cli.py:199-255 | the label, the command, the dry run or launch, and the explicit cleanup as specified |
| KsPackage.CleanupCallsReplayed | ks/src/ks/cli.py:252-255 | the calls of `main` and the exit hook are the run order once, and twice when `main` cleaned up itself |
| KsPackage.PackageProgram | ks/src/ks/helpers.py:153-154 | with the exit hook the registered tasks run twice, newest first each time, when `main` applied the label and finished, and once otherwise |
| KsPackage.PackageStatus | ks/src/ks/cli.py:48-262 | the packaged tool ends with status 0 or 1 |
| KsPackage.NoChoiceExitsZero | ks/src/ks/cli.py:166-169 | no namespace chosen is a quiet exit 0 with nothing labelled or launched |
| KsPackage.NoContainersExitsOne | ks/src/ks/cli.py:177-180 | a pod without containers exits 1 |
| KsPackage.LabelFailureExitsOne | ks/src/ks/cli.py:201-209 | a namespace refusing the label exits 1 before anything is launched |
| KsPackage.LaunchRunsUserCommand | ks/src/ks/cli.py:231-250 | a launched command runs, after its first "--", exactly the user's command with one leading "--" dropped |
| KsPackage.DryRunPrintsOnly | ks/src/ks/cli.py:244-250 | a dry run launches nothing, and kubectl's own status never changes the exit status |
| KsPackage.ResolveHelpers | ks/src/ks/cli.py:24-30 | a `helpers` package directory is chosen over a `helpers.py` module of the same name; the module is used only when no directory exists |
| KsPackage.MissingName | ks/src/ks/cli.py:24-30 | the import fails exactly when a requested name is undefined, and it names one such name |
| KsPackage.HelpersImportShadowed | ks/src/ks/cli.py:24-30 | as the repository stands, `.helpers` is the package, `check_command_availability` is missing, and the tool ends with status 1, nothing chosen, labelled or launched |
| KsPackage.HelpersModuleImports | ks/src/ks/helpers.py:27-154 | helpers.py defines every imported name, so with it the tool runs `main` as `PackageRun` specifies |

## Left out

- **Float text.** f-string widths and precision, and Python's round-half-even, are not modelled:
  - Decimal renderings of floats are a `Formatter` parameter. The model states only where such a text goes in a line.
  - `_format_eta` and the integer parts of durations are modelled exactly.
  - The legacy application's `round(…, 1)` on the delay and the brightness is modelled on exact reals, as rounding half to even at one decimal place; binary floating-point error is not modelled.
- SlideshowDisplay.ResizeWider: computed on exact reals. `display.py:48-49` divides and truncates in binary floating point, which can round one pixel below the exact quotient. The legacy `resize_image` (`__main__.py:692-728`) computes the same way and is not modelled apart from this function.
- SlideshowDisplay.ResizeTaller: computed on exact reals. `display.py:50-51` and the legacy `__main__.py:726-728` multiply by a rounded aspect ratio and truncate, which can give one pixel less than the exact result: a 2×49 image on a 2×49 canvas gets width 1 in Python and 2 in the model.
- KsPackage.PackageProgram: like `KsPackage.PackageMain`, `KsPackage.SelectPackageTarget` and `KsProcess.IterFzfSelect`, `KsProcess.RunCaptured` and `KsProcess.RequireCommand`, it follows ks/src/ks/helpers.py, the API cli.py is written against. As the repository stands, the `helpers/` package shadows that module and the import fails before `main` (see "## Findings"); `KsPackage.HelpersImportShadowed` models that failure.
- **File and terminal I/O.**
  - `follow_log` and `follow_log_lines` sleep and re-read a file. They become a finite sequence of lines with an optional interrupt position.
  - The cursor-movement and clear escape codes are kept. ANSI colour substitution is left out as cosmetic.
- **The plotext speed graph.** It is a foreign library, so it becomes a `Plotter` parameter that yields the graph's lines. The display pads or cuts them to the fixed height.
- **Network access of the usage report.** Paginated HTTP fetching of usage, projects and API keys is network I/O; the fetched buckets are inputs. The month-end date arithmetic and the PrettyTable/termcolor rendering are library code: a table row is its cell values.
- **Tk.**
  - Windows, canvases, dialogs, `yoink`, `display_image_info`, `quit`, `create_photoimage_robust` and `display_static_image` are UI code.
  - An `after` callback is recorded as a `Timer` value: what was scheduled and with which delay. The event queue that later runs it is not modelled.
  - The HUD's drawing geometry is left out. Only its size guard and its text are modelled.
- **Pillow.**
  - Decoding, mode conversion, brightness enhancement, resampling and EXIF extraction are foreign calls.
  - A decoded picture is a value taken from a map of path to picture: whether it is animated and its frames.
- SlideshowLegacy.LaunchStarts: for an empty folder the model ends in `Exited(1, "")`. The status 1 is the source's, but the stderr text is abstracted. The source reaches that exit through a Python exception raised on the missing window state, reported as "An unexpected error occurred: " and the exception's text (or a Tk error with `--shuffle`); those texts come from Python and Tk internals.
- **SlideshowApp.AfterShowImage.** It is bounded by a `fuel` count. In `app.py`, a file that fails to open makes `show_image` call `next_image_auto` again, with no bound. The model follows at most `fuel` such failures, then leaves the state as it is.
  - The same bound applies to `SlideshowApp.AfterNextImageAuto`, `SlideshowApp.AfterStep` and the class methods that take `fuel`.
- **Randomness and identifiers.**
  - `random.shuffle` is a parameter holding the shuffled order, required to be a permutation.
  - `uuid4()` is a parameter string.
  - `time.time()` and `time.monotonic()` are parameters or a sequence of readings.
- **Characters.** Text is ASCII-minded. `str.lower`, `str.isdigit` and `str.split()` treat only ASCII letters, digits and whitespace as such. ASCII whitespace includes the separators 0x1C-0x1F, as in Python. Unicode digits and non-ASCII whitespace (such as U+0085 and U+00A0) are not modelled.
- **The Kubernetes client wrappers** (`ks/ks.py`'s API helpers, `ks/src/ks/k8s.py`, `ks/ks_k8s.py`). They call a foreign API, so their answers are a `Cluster` value: names, containers, describable targets and namespace labels.
  - The JSON Patch body of the label removal is a constant sent to that API, so it is not modelled.
- **The ks completion scripts** (`ks/ks.py:189-244`, `ks/src/ks/completion.py`). They are static text: the model records which shell's script is printed.
  - The listing output of `--_list-*` is the cluster's list joined by newlines.
- **The target metadata that ks prints** is output only. The case where it is missing (ks/cli.py exits 1) is part of what the cluster answers.
- **KeyboardInterrupt.** An interrupt during a ks session (ks/ks.py and ks/cli.py exit 130) is not modelled. In the restore watcher it is an interrupt position in the line sequence.
- **Argument parsing and logging.** argparse and the logging setup are not modelled: parsed arguments are a record, and log messages are not modelled.
- **Output modes.** `run_command`'s `text=` switch between bytes and text is not modelled; output is always text.
- **Slideshow support files.** `config.py` (constants, inlined where used), the slideshow's exception classes, `exif_utils.py` and its `cli.py` are not part of this model.

## Findings

| source | as written | input that shows it | evidently intended | confidence | as-written member | corrected member |
|---|---|---|---|---|---|---|
| slideshow/src/slideshow/app.py:250-253 | `shuffle_images` reorders the list but keeps the preload cache, which is keyed by list index | images [a, b], showing b, both cached; the shuffle puts b first and shows index 0, which is still cached with a's picture | the picture shown is the one of the image now current, so the cache is dropped when the order changes | not executed | SlideshowApp.ShuffleShowsStalePicture | SlideshowApp.ShuffleShowsCurrent |
| slideshow/src/slideshow/app.py:255-264 | `sort_images` reorders the list but keeps the index-keyed preload cache | images [a, b], both cached, a newer than b; the sort gives [b, a] and index 0 shows a's picture | the first image after sorting is shown with its own picture | not executed | SlideshowApp.SortShowsStalePicture | SlideshowApp.SortShowsFirst |
| slideshow/src/slideshow/__main__.py:580-595 | when the current file is missing it is popped from the list and its cache entry deleted, but the cache entries above it are not shifted down | images [a, b, c], a missing, b and c cached at 1 and 2; after the pop c is at position 1, but showing position 1 uses b's picture | cache keys move with the list, as the favorites do at line 586 | not executed | SlideshowLegacy.DropLeavesStalePicture | SlideshowLegacy.DroppedKeepsCache |
| slideshow/src/slideshow/__main__.py:1513-1534 | with `--shuffle`, the shuffle already shows position 0; the start index is then set but never shown | images [a, b], `--shuffle --start-index 1`, with the shuffle keeping the order: the current index is 1 while a's picture is on the canvas | the image at the start index is the one shown | not executed | SlideshowLegacy.LaunchShowsWrongImage | SlideshowLegacy.LaunchStarts |
| ks/src/ks/cli.py:24-30 | `from .helpers import (…, check_command_availability)`, while ks/src/ks holds both a `helpers/` package and a `helpers.py` module; Python resolves `.helpers` to the package, which defines only `run_command`, `fzf_select`, `register_cleanup` and `run_cleanup` | running the installed `ks` with any arguments: the import raises ImportError before `main`, the exit status is 1, and the package's exit hook runs over an empty task list | the import reads helpers.py, whose API (`check_command_availability`, the iterfzf `fzf_select`, the tuple-returning `run_command`) the rest of cli.py is written against | not executed | KsPackage.HelpersImportShadowed | KsPackage.PackageProgram |
