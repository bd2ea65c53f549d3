/**
 * The restore watcher's view of the Proxmox active-task index
 * (proxmox/restore-watcher/restore_watcher.py): one line per task, the
 * task id (UPID) first, then an optional status word.
 */
module RestoreTasks {
  import opened Wrappers
  import opened Text

  /** The parsed form of one index line. */
  datatype Task = Task(upid: string, action: string, status: string, raw: string)

  /** Taking the first word of a line made only of whitespace raises IndexError. */
  datatype TaskError = IndexError

  const RestoreActionMarkers: seq<string> := ["qmrestore", "pctrestore"]
  const RestoreKeywordMarkers: seq<string> := ["restore", "restoring", "backup"]

  predicate IsActiveStatus(status: string) { status == "" || status == "0" }

  /** The sixth colon-separated field of `upid`, or "" when there are at most five. */
  function ActionField(upid: string): (a: string)
    ensures forall j :: 0 <= j < |a| ==> a[j] != ':'
  {
    var parts := Split(upid, ':');
    if |parts| > 5 then parts[5] else ""
  }

  /**
   * parse_upid: None for an empty line, IndexError for a blank one,
   * otherwise the first whitespace-separated word as id and the word after
   * it as status, unless the remainder is blank or opens with two spaces.
   */
  function ParseUpid(line: string): (r: Result<Option<Task>, TaskError>)
    ensures r == Ok(None) <==> RStripChar(line, '\n') == []
  {
    var raw := RStripChar(line, '\n');
    if raw == [] then Ok(None)
    else
      match FirstToken(raw)
      case None => Err(IndexError)
      case Some(upid) =>
        var trailing := if |upid| <= |raw| then raw[|upid|..] else [];
        var stripped := Strip(trailing);
        var twoSpaces := |trailing| >= 2 && trailing[0] == ' ' && trailing[1] == ' ';
        var status := if twoSpaces || stripped == [] then "" else TakeWord(stripped);
        Ok(Some(Task(upid, ActionField(upid), status, raw)))
  }

  /** What a parsed task holds, and when the line is rejected. */
  lemma ParseUpidShape(line: string)
    ensures var raw := RStripChar(line, '\n');
      ParseUpid(line).Err? <==> raw != [] && forall i :: 0 <= i < |raw| ==> IsSpace(raw[i])
    ensures ParseUpid(line).Ok? && ParseUpid(line).value.Some? ==>
      var t := ParseUpid(line).value.value;
      && t.raw == RStripChar(line, '\n')
      && IsWord(t.upid) && Contains(t.raw, t.upid)
      && (forall j :: 0 <= j < |t.status| ==> !IsSpace(t.status[j]))
      && t.action == ActionField(t.upid)
  {
    var raw := RStripChar(line, '\n');
    FirstTokenSpec(raw);
    if raw != [] && FirstToken(raw).Some? {
      var upid := FirstToken(raw).value;
      var trailing := if |upid| <= |raw| then raw[|upid|..] else [];
      TakeWordSpec(Strip(trailing));
    }
  }

  /** A word: non-empty and free of whitespace. */
  predicate IsWord(w: string) { |w| > 0 && forall j :: 0 <= j < |w| ==> !IsSpace(w[j]) }

  lemma {:induction false} TakeWordOfWord(w: string, t: string)
    requires forall j :: 0 <= j < |w| ==> !IsSpace(w[j])
    requires t == [] || IsSpace(t[0])
    ensures TakeWord(w + t) == w
    decreases |w|
  {
    if |w| > 0 {
      assert (w + t)[1..] == w[1..] + t;
      TakeWordOfWord(w[1..], t);
    } else if t != [] {
      assert (w + t)[0] == t[0];
    }
  }

  lemma TrimLeftOfWord(w: string, t: string)
    requires IsWord(w)
    ensures TrimLeft(w + t) == w + t
  {
    assert (w + t)[0] == w[0];
  }

  /** TrimRight never cuts into a leading word. */
  lemma TrimRightKeepsWord(w: string, t: string)
    requires IsWord(w)
    requires t == [] || IsSpace(t[0])
    ensures TakeWord(TrimRight(w + t)) == w
  {
    var x := w + t;
    var r := TrimRight(x);
    TrimRightSpec(x);
    assert x[|w| - 1] == w[|w| - 1];
    assert |r| >= |w|;
    assert r[..|w|] == w;
    if |r| == |w| {
      assert r == w + [];
      TakeWordOfWord(w, []);
    } else {
      assert r == w + r[|w|..];
      assert r[|w|] == t[0];
      TakeWordOfWord(w, r[|w|..]);
    }
  }

  /** A line "<upid> <status> ..." yields that id and that status. */
  lemma ParseUpidWithStatus(upid: string, status: string, tail: string, eol: string)
    requires IsWord(upid) && IsWord(status)
    requires tail == [] || (IsSpace(tail[0]) && tail[|tail| - 1] != '\n')
    requires eol == "" || eol == "\n"
    ensures ParseUpid(upid + " " + status + tail + eol)
         == Ok(Some(Task(upid, ActionField(upid), status, upid + " " + status + tail)))
  {
    var raw := upid + " " + status + tail;
    assert raw[|raw| - 1] != '\n' by {
      if tail == [] { assert raw[|raw| - 1] == status[|status| - 1]; }
      else { assert raw[|raw| - 1] == tail[|tail| - 1]; }
    }
    StripsOneEol(raw, eol);
    TrimLeftOfWord(upid, " " + status + tail);
    assert raw == upid + (" " + status + tail);
    TakeWordOfWord(upid, " " + status + tail);
    StatusAfterWord(upid, status, tail, raw);
  }

  /** Removing the trailing newlines of a line with at most one gives the line without it. */
  lemma StripsOneEol(raw: string, eol: string)
    requires raw != [] && raw[|raw| - 1] != '\n'
    requires eol == "" || eol == "\n"
    ensures RStripChar(raw + eol, '\n') == raw
  {
    var line := raw + eol;
    if eol == "\n" { assert line[..|line| - 1] == raw; } else { assert line == raw; }
    assert RStripChar(raw, '\n') == raw;
  }

  /** After the first word and one space comes the status word. */
  lemma StatusAfterWord(upid: string, status: string, tail: string, raw: string)
    requires IsWord(upid) && IsWord(status)
    requires tail == [] || IsSpace(tail[0])
    requires raw == upid + (" " + status + tail)
    ensures var trailing := raw[|upid|..];
      var stripped := Strip(trailing);
      !(|trailing| >= 2 && trailing[0] == ' ' && trailing[1] == ' ')
      && stripped != [] && TakeWord(stripped) == status
  {
    var trailing := raw[|upid|..];
    assert trailing == " " + status + tail;
    assert trailing[1] == status[0];
    assert TrimLeft(trailing) == status + tail by {
      assert trailing[1..] == status + tail;
      TrimLeftOfWord(status, tail);
    }
    TrimRightKeepsWord(status, tail);
    var stripped := Strip(trailing);
    assert stripped == TrimRight(status + tail);
    assert stripped != [] by {
      assert TakeWord(stripped) == status;
    }
  }

  /** A line "<upid>  ..." (two spaces) has the empty status. */
  lemma ParseUpidDoubleSpace(upid: string, tail: string, eol: string)
    requires IsWord(upid)
    requires tail == [] || tail[|tail| - 1] != '\n'
    requires eol == "" || eol == "\n"
    ensures ParseUpid(upid + "  " + tail + eol)
         == Ok(Some(Task(upid, ActionField(upid), "", upid + "  " + tail)))
  {
    var raw := upid + "  " + tail;
    var line := raw + eol;
    assert RStripChar(line, '\n') == raw by {
      if eol == "\n" { assert line[..|line| - 1] == raw; } else { assert line == raw; }
      if tail == [] { assert raw[|raw| - 1] == ' '; }
      else { assert raw[|raw| - 1] == tail[|tail| - 1]; }
      assert RStripChar(raw, '\n') == raw;
    }
    TrimLeftOfWord(upid, "  " + tail);
    assert raw == upid + ("  " + tail);
    TakeWordOfWord(upid, "  " + tail);
    assert raw[|upid|..] == "  " + tail;
  }

  /** Each line of an index file, parsed on its own. */
  function ParseLines(lines: seq<string>): (r: seq<Result<Option<Task>, TaskError>>)
    ensures |r| == |lines|
    ensures forall i :: 0 <= i < |lines| ==> r[i] == ParseUpid(lines[i])
  {
    seq(|lines|, i requires 0 <= i < |lines| => ParseUpid(lines[i]))
  }

  /**
   * read_active_tasks over the lines of an index file that exists: the
   * parsed lines whose status is "" or "0", in file order; the first blank
   * line raises IndexError.
   */
  function ActiveTasks(lines: seq<string>): (r: Result<seq<Task>, TaskError>)
  {
    ActiveOf(ParseLines(lines))
  }

  /** The fold of the read loop over already parsed lines. */
  function ActiveOf(parsed: seq<Result<Option<Task>, TaskError>>): (r: Result<seq<Task>, TaskError>)
  {
    if parsed == [] then Ok([])
    else
      var rest := ActiveOf(parsed[1..]);
      if parsed[0].Err? then Err(parsed[0].error)
      else if rest.Err? then rest
      else Ok(Kept(parsed[0].value) + rest.value)
  }

  /** The restore task a parsed line contributes: itself when active, else nothing. */
  function Kept(parsed: Option<Task>): (r: seq<Task>)
  {
    if parsed.Some? && IsActiveStatus(parsed.value.status) then [parsed.value] else []
  }

  /** Reading a file in two parts is reading each part and concatenating. */
  lemma {:induction false} ActiveOfAppend(a: seq<Result<Option<Task>, TaskError>>, b: seq<Result<Option<Task>, TaskError>>)
    ensures ActiveOf(a + b).Ok? <==> ActiveOf(a).Ok? && ActiveOf(b).Ok?
    ensures ActiveOf(a + b).Ok? ==> ActiveOf(a + b).value == ActiveOf(a).value + ActiveOf(b).value
    decreases |a|
  {
    if a != [] {
      assert (a + b)[0] == a[0];
      assert (a + b)[1..] == a[1..] + b;
      ActiveOfAppend(a[1..], b);
    } else {
      assert a + b == b;
    }
  }

  /** One parsed line on its own. */
  lemma ActiveOfSingle(p: Result<Option<Task>, TaskError>)
    ensures ActiveOf([p]) == if p.Err? then Err(p.error) else Ok(Kept(p.value))
  {
    assert [p][1..] == [];
    assert ActiveOf([p][1..]) == Ok([]);
    if p.Ok? {
      assert Kept(p.value) + [] == Kept(p.value);
    }
  }

  /** Every task read is active and comes from a line of the file. */
  lemma {:induction false} ActiveOfSound(parsed: seq<Result<Option<Task>, TaskError>>, t: Task)
    requires ActiveOf(parsed).Ok? && t in ActiveOf(parsed).value
    ensures IsActiveStatus(t.status)
    ensures Ok(Some(t)) in parsed
    decreases |parsed|
  {
    if t !in Kept(parsed[0].value) {
      ActiveOfSound(parsed[1..], t);
    }
  }

  /** Every active task of the file is read. */
  lemma {:induction false} ActiveOfComplete(parsed: seq<Result<Option<Task>, TaskError>>, t: Task)
    requires ActiveOf(parsed).Ok? && Ok(Some(t)) in parsed && IsActiveStatus(t.status)
    ensures t in ActiveOf(parsed).value
    decreases |parsed|
  {
    if parsed[0] != Ok(Some(t)) {
      ActiveOfComplete(parsed[1..], t);
    }
  }

  /**
   * read_active_tasks keeps exactly the active tasks of the file, and fails
   * exactly when some line is blank.
   */
  lemma ActiveTasksExactly(lines: seq<string>, t: Task)
    ensures ActiveTasks(lines).Err? <==> exists i :: 0 <= i < |lines| && ParseUpid(lines[i]).Err?
    ensures ActiveTasks(lines).Ok? ==>
      (t in ActiveTasks(lines).value <==>
        IsActiveStatus(t.status) && exists i :: 0 <= i < |lines| && ParseUpid(lines[i]) == Ok(Some(t)))
  {
    var parsed := ParseLines(lines);
    ActiveOfErr(parsed);
    if ActiveOf(parsed).Ok? {
      if t in ActiveOf(parsed).value {
        ActiveOfSound(parsed, t);
        var i :| 0 <= i < |parsed| && parsed[i] == Ok(Some(t));
        assert ParseUpid(lines[i]) == Ok(Some(t));
      }
      if IsActiveStatus(t.status) && exists i :: 0 <= i < |lines| && ParseUpid(lines[i]) == Ok(Some(t)) {
        var i :| 0 <= i < |lines| && ParseUpid(lines[i]) == Ok(Some(t));
        assert parsed[i] == Ok(Some(t));
        ActiveOfComplete(parsed, t);
      }
    }
    if exists i :: 0 <= i < |lines| && ParseUpid(lines[i]).Err? {
      var i :| 0 <= i < |lines| && ParseUpid(lines[i]).Err?;
      assert parsed[i].Err?;
    }
  }

  lemma {:induction false} ActiveOfErr(parsed: seq<Result<Option<Task>, TaskError>>)
    ensures ActiveOf(parsed).Err? <==> exists i :: 0 <= i < |parsed| && parsed[i].Err?
    decreases |parsed|
  {
    if parsed != [] {
      ActiveOfErr(parsed[1..]);
      if exists i :: 0 <= i < |parsed[1..]| && parsed[1..][i].Err? {
        var i :| 0 <= i < |parsed[1..]| && parsed[1..][i].Err?;
        assert parsed[i + 1].Err?;
      }
      if exists i :: 0 <= i < |parsed| && parsed[i].Err? {
        var i :| 0 <= i < |parsed| && parsed[i].Err?;
        if i > 0 { assert parsed[1..][i - 1].Err?; }
      }
    }
  }

  /**
   * read_active_tasks: an index file that does not exist gives no task;
   * otherwise its lines are parsed in order.
   */
  method ReadActiveTasks(file: Option<seq<string>>) returns (r: Result<seq<Task>, TaskError>)
    ensures file.None? ==> r == Ok([])
    ensures file.Some? ==> r == ActiveTasks(file.value)
  {
    if file.None? {
      return Ok([]);
    }
    var lines := file.value;
    ghost var parsed := ParseLines(lines);
    var tasks: seq<Task> := [];
    var i := 0;
    while i < |lines|
      invariant 0 <= i <= |lines|
      invariant ActiveOf(parsed[..i]) == Ok(tasks)
    {
      var entry := ParseUpid(lines[i]);
      if entry.Err? {
        ActiveOfFails(parsed, i);
        return Err(IndexError);
      }
      ActiveOfNext(parsed, i, tasks);
      tasks := tasks + Kept(entry.value);
      i := i + 1;
    }
    assert parsed[..i] == parsed;
    r := Ok(tasks);
  }

  /** One more line read: its task, when active, joins the list. */
  lemma ActiveOfNext(parsed: seq<Result<Option<Task>, TaskError>>, i: int, tasks: seq<Task>)
    requires 0 <= i < |parsed| && ActiveOf(parsed[..i]) == Ok(tasks) && parsed[i].Ok?
    ensures ActiveOf(parsed[..i + 1]) == Ok(tasks + Kept(parsed[i].value))
  {
    assert parsed[..i + 1] == parsed[..i] + [parsed[i]];
    ActiveOfAppend(parsed[..i], [parsed[i]]);
    ActiveOfSingle(parsed[i]);
  }

  /** A line that fails fails the whole file. */
  lemma ActiveOfFails(parsed: seq<Result<Option<Task>, TaskError>>, i: int)
    requires 0 <= i < |parsed| && parsed[i].Err?
    ensures ActiveOf(parsed) == Err(IndexError)
  {
    assert parsed == parsed[..i] + [parsed[i]] + parsed[i + 1..];
    ActiveOfAppend(parsed[..i] + [parsed[i]], parsed[i + 1..]);
    ActiveOfAppend(parsed[..i], [parsed[i]]);
    ActiveOfSingle(parsed[i]);
    var r := ActiveOf(parsed);
    assert r.Err? && r.error.IndexError?;
  }

  /** A task is restore-like by its action or by a keyword in its id and line. */
  predicate IsRestoreLike(t: Task) {
    LowerStr(t.action) in RestoreActionMarkers
    || ContainsAny(LowerStr(t.upid + " " + t.raw), RestoreKeywordMarkers)
  }

  /** The order-preserving selection of the restore-like tasks. */
  function RestoreLike(tasks: seq<Task>): (r: seq<Task>)
    ensures |r| <= |tasks|
    ensures forall t :: t in r ==> t in tasks && IsRestoreLike(t)
  {
    if tasks == [] then []
    else (if IsRestoreLike(tasks[0]) then [tasks[0]] else []) + RestoreLike(tasks[1..])
  }

  lemma {:induction false} RestoreLikeAppend(a: seq<Task>, b: seq<Task>)
    ensures RestoreLike(a + b) == RestoreLike(a) + RestoreLike(b)
    decreases |a|
  {
    if a != [] {
      assert (a + b)[0] == a[0];
      assert (a + b)[1..] == a[1..] + b;
      RestoreLikeAppend(a[1..], b);
    } else {
      assert a + b == b;
    }
  }

  /** Every restore-like task of the input is kept. */
  lemma {:induction false} RestoreLikeComplete(tasks: seq<Task>, t: Task)
    requires t in tasks && IsRestoreLike(t)
    ensures t in RestoreLike(tasks)
    decreases |tasks|
  {
    if tasks[0] != t {
      RestoreLikeComplete(tasks[1..], t);
    }
  }

  /** filter_restore_tasks, the loop over the tasks. */
  method FilterRestoreTasks(tasks: seq<Task>) returns (kept: seq<Task>)
    ensures kept == RestoreLike(tasks)
  {
    kept := [];
    var i := 0;
    while i < |tasks|
      invariant 0 <= i <= |tasks|
      invariant kept == RestoreLike(tasks[..i])
    {
      RestoreLikeAppend(tasks[..i], [tasks[i]]);
      assert tasks[..i + 1] == tasks[..i] + [tasks[i]];
      var action := LowerStr(tasks[i].action);
      var text := LowerStr(tasks[i].upid + " " + tasks[i].raw);
      if action in RestoreActionMarkers {
        kept := kept + [tasks[i]];
      } else if ContainsAny(text, RestoreKeywordMarkers) {
        kept := kept + [tasks[i]];
      }
      i := i + 1;
    }
    assert tasks[..i] == tasks;
  }

  /** choose_restore_task: the most recently listed restore task. */
  function ChooseRestoreTask(tasks: seq<Task>): (r: Option<Task>)
    ensures r.None? <==> tasks == []
    ensures r.Some? ==> r.value == tasks[|tasks| - 1] && r.value in tasks
  {
    if tasks == [] then None else Some(tasks[|tasks| - 1])
  }
}
