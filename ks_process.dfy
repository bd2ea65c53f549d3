// External programs as the ks tool drives them: the fzf picker and the
// `run_command` wrapper, in the forms they take in the three copies of the
// tool.
//
// ks/ks.py and ks/src/ks/helpers/__init__.py run the fzf binary themselves and
// read its exit status; ks/src/ks/helpers.py goes through the iterfzf library
// instead. Their `run_command` wrappers differ too: the first two exit on a
// non-zero status when asked to check, the third never does.
//
// What a program does once started is an input (`Run`), as is whether a
// binary is on PATH.

module KsProcess {
  import opened Wrappers
  import opened Text

  /** How a started program ended: it raised before finishing, or it exited with a status and its output. */
  datatype Run = Raised | Exited(code: int, stdout: string, stderr: string)

  /** What a helper hands back: a value, or the whole process ends with `sys.exit(status)`. */
  datatype Outcome<T> = Value(value: T) | Exit(status: int)

  /** fzf's status when the user pressed Escape or Ctrl-C. */
  const FzfCancelled := 130
  /** fzf's status when nothing matched. */
  const FzfNoMatch := 1

  /* ---------------- fzf, run directly (ks/ks.py, ks/src/ks/helpers/__init__.py) ---------------- */

  /** The command that runs the picker: a fixed height and the caller's prompt. */
  function FzfArgv(prompt: string): (r: seq<string>)
    ensures |r| == 5 && r[0] == "fzf" && r[4] == prompt
  {
    ["fzf", "--height", "20%", "--prompt", prompt]
  }

  /** What the picker reads: the items, one per line. */
  function FzfInput(items: seq<string>): (r: string)
    requires items != []
  {
    Join(items, '\n')
  }

  /** Items without line breaks reach the picker as exactly the lines it offers. */
  lemma FzfInputLines(items: seq<string>)
    requires items != []
    requires forall k, j :: 0 <= k < |items| && 0 <= j < |items[k]| ==> items[k][j] != '\n'
    ensures Split(FzfInput(items), '\n') == items
  {
    SplitJoin(items, '\n');
  }

  /**
   * `fzf_select`: nothing to choose from gives no choice without running fzf;
   * a missing binary exits; then the exit status decides.
   */
  function FzfSelect(items: seq<string>, fzfOnPath: bool, run: Run): (r: Outcome<Option<string>>)
    ensures r.Exit? ==> r.status == 1
    ensures r == Value(None) <==>
      items == [] || (fzfOnPath && run.Exited? && (run.code == FzfNoMatch || run.code == FzfCancelled))
    ensures r.Value? && r.value.Some? <==> items != [] && fzfOnPath && run.Exited? && run.code == 0
    ensures r.Value? && r.value.Some? ==> r.value.value == Strip(run.stdout)
    ensures r.Exit? <==>
      items != [] && (!fzfOnPath || run.Raised? || !(run.code in {0, FzfNoMatch, FzfCancelled}))
  {
    if items == [] then Value(None)
    else if !fzfOnPath then Exit(1)
    else match run
      case Raised => Exit(1)
      case Exited(code, stdout, _) =>
        if code == 0 then Value(Some(Strip(stdout)))
        else if code == FzfCancelled || code == FzfNoMatch then Value(None)
        else Exit(1)
  }

  /* ---------------- fzf through iterfzf (ks/src/ks/helpers.py) ---------------- */

  /** What iterfzf reported: a selection, a dismissal, or an exception. */
  datatype Pick = Chose(selection: string) | Dismissed | Failed

  /** The prompt iterfzf is given: the caller's, with "> " appended. */
  function IterFzfPrompt(prompt: string): (r: string)
    ensures StartsWith(r, prompt) && |r| == |prompt| + 2 && r[|prompt|..] == "> "
  {
    prompt + "> "
  }

  /** `fzf_select` of the packaged tool: never exits; no items, a dismissal or an error all give no choice. */
  function IterFzfSelect(items: seq<string>, pick: Pick): (r: Option<string>)
    ensures r.Some? <==> items != [] && pick.Chose?
    ensures r.Some? ==> r.value == pick.selection
  {
    if items == [] then None
    else match pick
      case Chose(selection) => Some(selection)
      case _ => None
  }

  /* ---------------- run_command ---------------- */

  /** A finished program as `subprocess.run` returns it; the streams are None when not captured. */
  datatype Completed = Completed(code: int, stdout: Option<string>, stderr: Option<string>)

  /**
   * `run_command` of ks/ks.py and ks/src/ks/helpers/__init__.py: a program that
   * cannot be started or raises exits with status 1, and so does one that ends
   * with a non-zero status when `check` is set.
   */
  function RunChecked(check: bool, capture: bool, run: Run): (r: Outcome<Completed>)
    ensures r.Exit? <==> run.Raised? || (check && run.code != 0)
    ensures r.Exit? ==> r.status == 1
    ensures r.Value? ==> r.value.code == run.code && (check ==> r.value.code == 0)
    ensures r.Value? ==> (r.value.stdout.Some? <==> capture) && (r.value.stderr.Some? <==> capture)
    ensures r.Value? && capture ==> r.value.stdout == Some(run.stdout) && r.value.stderr == Some(run.stderr)
  {
    match run
    case Raised => Exit(1)
    case Exited(code, stdout, stderr) =>
      if check && code != 0 then Exit(1)
      else Value(Completed(code, if capture then Some(stdout) else None, if capture then Some(stderr) else None))
  }

  /**
   * `run_command` of ks/src/ks/helpers.py: the status and both streams, with
   * "" for streams not captured; only a program that cannot be started or
   * raises makes it exit.
   */
  function RunCaptured(capture: bool, run: Run): (r: Outcome<(int, string, string)>)
    ensures r.Exit? <==> run.Raised?
    ensures r.Exit? ==> r.status == 1
    ensures r.Value? ==> r.value.0 == run.code
    ensures r.Value? && !capture ==> r.value.1 == "" && r.value.2 == ""
    ensures r.Value? && capture ==> r.value.1 == run.stdout && r.value.2 == run.stderr
  {
    match run
    case Raised => Exit(1)
    case Exited(code, stdout, stderr) =>
      Value((code, if capture then stdout else "", if capture then stderr else ""))
  }

  /** With checking off, the two wrappers agree on when they exit and on what they return. */
  lemma RunWrappersAgree(capture: bool, run: Run)
    ensures RunCaptured(capture, run).Exit? <==> RunChecked(false, capture, run).Exit?
    ensures RunCaptured(capture, run).Value? ==>
      var c := RunChecked(false, capture, run).value;
      var t := RunCaptured(capture, run).value;
      t.0 == c.code && t.1 == c.stdout.GetOr("") && t.2 == c.stderr.GetOr("")
  {
  }

  /** `check_command_availability`: a required binary missing from PATH exits with status 1. */
  function RequireCommand(onPath: bool): (r: Outcome<()>)
    ensures r.Exit? <==> !onPath
    ensures r.Exit? ==> r.status == 1
  {
    if onPath then Value(()) else Exit(1)
  }
}
