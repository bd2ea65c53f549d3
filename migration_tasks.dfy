/**
 * The migration watcher's task index and log lookup (`parse_upid`,
 * `read_active_tasks` and `find_task_logfile` of watcher.py). Unlike the
 * restore watcher, an id is recognised by a strict pattern: eight
 * colon-separated fields with upper-case hexadecimal numbers, then an
 * optional status text.
 */
module MigrationTasks {
  import opened Wrappers
  import opened Text

  /** The character classes the id pattern uses. */
  datatype CharClass =
    | NotColon    // [^:]
    | UpperHex    // [0-9A-F]
    | TypeChar    // [a-zA-Z0-9\-_]
    | UserChar    // [^:\s]

  predicate InClass(c: char, cls: CharClass)
  {
    match cls
    case NotColon => c != ':'
    case UpperHex => IsDigit(c) || 'A' <= c <= 'F'
    case TypeChar => 'a' <= c <= 'z' || 'A' <= c <= 'Z' || IsDigit(c) || c == '-' || c == '_'
    case UserChar => c != ':' && !IsSpace(c)
  }

  /** One field of the pattern: its class, and `+` (non-empty) or `*`. */
  datatype FieldSpec = FieldSpec(cls: CharClass, nonEmpty: bool)

  /** node, pid, start time, process start, type, id and user, after "UPID:". */
  const UpidFields: seq<FieldSpec> := [
    FieldSpec(NotColon, true), FieldSpec(UpperHex, true), FieldSpec(UpperHex, true),
    FieldSpec(UpperHex, true), FieldSpec(TypeChar, true), FieldSpec(NotColon, false),
    FieldSpec(UserChar, true)]

  /** A task of the index, as `parse_upid` returns it. */
  datatype MigrationTask = MigrationTask(upid: string, action: string, vmid: string, user: string, status: string)

  /** The length of the longest prefix of `s` in `cls`. */
  function Leading(s: string, cls: CharClass): (n: nat)
    ensures n <= |s|
    ensures forall i :: 0 <= i < n ==> InClass(s[i], cls)
    ensures n < |s| ==> !InClass(s[n], cls)
  {
    if s == [] || !InClass(s[0], cls) then 0 else 1 + Leading(s[1..], cls)
  }

  predicate ValidField(f: string, spec: FieldSpec)
  {
    (spec.nonEmpty ==> f != []) && forall i :: 0 <= i < |f| ==> InClass(f[i], spec.cls)
  }

  predicate ColonFree(spec: FieldSpec) { !InClass(':', spec.cls) }

  /**
   * The colon-separated fields at the start of `s`, each taken greedily, and
   * what follows the last one.
   */
  function ParseFields(s: string, specs: seq<FieldSpec>): (r: Option<(seq<string>, string)>)
    requires |specs| >= 1 && forall k :: 0 <= k < |specs| ==> ColonFree(specs[k])
    ensures r.Some? ==> |r.value.0| == |specs| && s == Join(r.value.0, ':') + r.value.1
    decreases |specs|
  {
    var n := Leading(s, specs[0].cls);
    if specs[0].nonEmpty && n == 0 then None
    else if |specs| == 1 then
      assert s == s[..n] + s[n..];
      Some(([s[..n]], s[n..]))
    else if n < |s| && s[n] == ':' then
      match ParseFields(s[n + 1..], specs[1..])
      case None => None
      case Some((fields, rest)) =>
        JoinCons(s[..n], fields, rest, s);
        Some(([s[..n]] + fields, rest))
    else None
  }

  /** Every field found fits its class, and the last one is as long as it can be. */
  lemma {:induction false} ParseFieldsSound(s: string, specs: seq<FieldSpec>)
    requires |specs| >= 1 && forall k :: 0 <= k < |specs| ==> ColonFree(specs[k])
    requires ParseFields(s, specs).Some?
    ensures var (fields, rest) := ParseFields(s, specs).value;
      && (forall k :: 0 <= k < |specs| ==> ValidField(fields[k], specs[k]))
      && (rest == [] || !InClass(rest[0], specs[|specs| - 1].cls))
    decreases |specs|
  {
    if |specs| > 1 {
      var n := Leading(s, specs[0].cls);
      ParseFieldsSound(s[n + 1..], specs[1..]);
      var t := ParseFields(s[n + 1..], specs[1..]).value;
      assert ParseFields(s, specs).value == ([s[..n]] + t.0, t.1);
    }
  }

  lemma JoinCons(f: string, fields: seq<string>, rest: string, s: string)
    requires |fields| >= 1 && |f| < |s| && s[..|f|] == f && s[|f|] == ':' && s[|f| + 1..] == Join(fields, ':') + rest
    ensures s == Join([f] + fields, ':') + rest
  {
    JoinFirst(f, fields);
    ColonAfter(s, f);
    var head, tail := f + [':'], Join(fields, ':');
    assert s == head + (tail + rest);
    SeqAssoc(head, tail, rest);
  }

  lemma SeqAssoc(a: string, b: string, c: string)
    ensures a + (b + c) == (a + b) + c
  {
  }

  lemma JoinFirst(f: string, fields: seq<string>)
    requires |fields| >= 1
    ensures Join([f] + fields, ':') == f + [':'] + Join(fields, ':')
  {
    assert ([f] + fields)[0] == f && ([f] + fields)[1..] == fields;
  }

  lemma ColonAfter(s: string, f: string)
    requires |f| < |s| && s[..|f|] == f && s[|f|] == ':'
    ensures s == (f + [':']) + s[|f| + 1..]
  {
    assert s == s[..|f| + 1] + s[|f| + 1..];
    assert s[..|f| + 1] == f + [':'];
  }

  /** A valid first field followed by a colon is taken whole, and the rest is parsed after it. */
  lemma ParseFieldsCons(f: string, tail: string, specs: seq<FieldSpec>)
    requires |specs| >= 2 && forall k :: 0 <= k < |specs| ==> ColonFree(specs[k])
    requires ValidField(f, specs[0])
    ensures ParseFields(f + ([':'] + tail), specs)
      == match ParseFields(tail, specs[1..])
         case None => None
         case Some((fields, rest)) => Some(([f] + fields, rest))
  {
    var s := f + ([':'] + tail);
    LeadingOf(f, [':'] + tail, specs[0].cls);
    assert s[..|f|] == f && s[|f| + 1..] == tail && s[|f|] == ':';
  }

  /** Greedy matching recovers fields that fit their classes. */
  lemma {:induction false} ParseFieldsJoin(fields: seq<string>, rest: string, specs: seq<FieldSpec>)
    requires |specs| >= 1 && forall k :: 0 <= k < |specs| ==> ColonFree(specs[k])
    requires |fields| == |specs| && forall k :: 0 <= k < |specs| ==> ValidField(fields[k], specs[k])
    requires rest == [] || !InClass(rest[0], specs[|specs| - 1].cls)
    ensures ParseFields(Join(fields, ':') + rest, specs) == Some((fields, rest))
    decreases |specs|
  {
    var f := fields[0];
    if |specs| == 1 {
      assert fields == [f];
      ParseOneField(f, rest, specs);
    } else {
      var tail := Join(fields[1..], ':') + rest;
      assert Join(fields, ':') + rest == f + ([':'] + tail);
      ParseFieldsJoin(fields[1..], rest, specs[1..]);
      ParseFieldsCons(f, tail, specs);
      assert [f] + fields[1..] == fields;
    }
  }

  /** The last field is taken as far as its class goes. */
  lemma ParseOneField(f: string, rest: string, specs: seq<FieldSpec>)
    requires |specs| == 1 && ColonFree(specs[0]) && ValidField(f, specs[0])
    requires rest == [] || !InClass(rest[0], specs[0].cls)
    ensures ParseFields(Join([f], ':') + rest, specs) == Some(([f], rest))
  {
    var s := f + rest;
    assert Join([f], ':') == f;
    LeadingOf(f, rest, specs[0].cls);
    assert s[..|f|] == f && s[|f|..] == rest;
  }

  lemma LeadingOf(f: string, t: string, cls: CharClass)
    requires forall i :: 0 <= i < |f| ==> InClass(f[i], cls)
    requires t == [] || !InClass(t[0], cls)
    ensures Leading(f + t, cls) == |f|
  {
    assert forall i :: 0 <= i < |f| ==> (f + t)[i] == f[i];
    assert t != [] ==> (f + t)[|f|] == t[0];
  }

  /**
   * `(:?\s+(\S.*))?$` after the user field: nothing (or a final newline), or an
   * optional colon, whitespace, then text that holds no newline except a
   * final one; its stripped value is the status.
   */
  function StatusTail(t: string): (r: Option<string>)
  {
    if t == [] || t == "\n" then Some("")
    else
      var u := if t[0] == ':' then t[1..] else t;
      var w := LeadingSpaceCount(u);
      if w == 0 || w == |u| then None
      else
        var v := u[w..];
        var body := if v[|v| - 1] == '\n' then v[..|v| - 1] else v;
        if NoNewline(body) then Some(Strip(body)) else None
  }

  function LeadingSpaceCount(s: string): (n: nat)
    ensures n <= |s|
    ensures forall i :: 0 <= i < n ==> IsSpace(s[i])
    ensures n < |s| ==> !IsSpace(s[n])
  {
    if s == [] || !IsSpace(s[0]) then 0 else 1 + LeadingSpaceCount(s[1..])
  }

  predicate NoNewline(s: string) { forall i :: 0 <= i < |s| ==> s[i] != '\n' }

  /** `parse_upid`: None unless the whole line has the id shape. */
  function ParseUpid(line: string): (r: Option<MigrationTask>)
    ensures r.Some? ==> StartsWith(r.value.upid, "UPID:") && r.value.vmid != []
  {
    if !StartsWith(line, "UPID:") then None
    else
      match ParseFields(line[5..], UpidFields)
      case None => None
      case Some((fields, t)) =>
        match StatusTail(t)
        case None => None
        case Some(status) =>
          Some(MigrationTask("UPID:" + Join(fields, ':'), fields[4], if fields[5] == [] then "N/A" else fields[5],
                             fields[6], status))
  }

  /** The text of an id with the given seven fields after "UPID". */
  function UpidText(fields: seq<string>): string
    requires |fields| == 7
  {
    "UPID:" + Join(fields, ':')
  }

  predicate ValidFields(fields: seq<string>)
  {
    |fields| == 7 && forall k :: 0 <= k < 7 ==> ValidField(fields[k], UpidFields[k])
  }

  /** A status that survives `strip()` and the `.*` of the pattern unchanged. */
  predicate CleanStatus(status: string)
  {
    status != [] && !IsSpace(status[0]) && !IsSpace(status[|status| - 1]) && NoNewline(status)
  }

  /** Every id of the right shape parses, with or without a status after a space. */
  lemma ParseUpidOfFields(fields: seq<string>, status: string)
    requires ValidFields(fields)
    requires status == [] || CleanStatus(status)
    ensures var line := UpidText(fields) + (if status == [] then "" else " " + status);
      ParseUpid(line) == Some(MigrationTask(UpidText(fields), fields[4], if fields[5] == [] then "N/A" else fields[5],
                                            fields[6], status))
  {
    var tail := if status == [] then "" else " " + status;
    var line := UpidText(fields) + tail;
    assert line == "UPID:" + (Join(fields, ':') + tail);
    assert line[5..] == Join(fields, ':') + tail;
    ParseFieldsJoin(fields, tail, UpidFields);
    StatusTailOf(status);
  }

  /** The text after the user field gives back the status it carries. */
  lemma StatusTailOf(status: string)
    requires status == [] || CleanStatus(status)
    ensures StatusTail(if status == [] then "" else " " + status) == Some(status)
  {
    if status != [] {
      var tail := " " + status;
      assert LeadingSpaceCount(tail) == 1;
      assert tail[1..] == status;
      StripClean(status);
    }
  }

  /** strip() leaves text without outer whitespace alone. */
  lemma StripClean(s: string)
    requires s != [] && !IsSpace(s[0]) && !IsSpace(s[|s| - 1])
    ensures Strip(s) == s
  {
  }

  /**
   * A field before the user field that holds a character outside its class
   * (lower-case hexadecimal in the pid, say) rejects the line, whatever follows.
   */
  lemma BadFieldRejected(fields: seq<string>, k: nat, i: nat, t: string)
    requires |fields| == 7 && k < 6 && i < |fields[k]|
    requires forall j :: 0 <= j < k ==> ValidField(fields[j], UpidFields[j])
    requires forall j :: 0 <= j <= k ==> ':' !in fields[j]
    requires !InClass(fields[k][i], UpidFields[k].cls)
    ensures ParseUpid(UpidText(fields) + t).None?
  {
    var line := UpidText(fields) + t;
    assert line[5..] == Join(fields, ':') + t;
    ParseFieldsRejects(fields, t, UpidFields, k, i);
  }

  lemma {:induction false} ParseFieldsRejects(fields: seq<string>, t: string, specs: seq<FieldSpec>, k: nat, i: nat)
    requires |specs| >= 1 && forall j :: 0 <= j < |specs| ==> ColonFree(specs[j])
    requires |fields| == |specs| && k < |specs| - 1 && i < |fields[k]|
    requires forall j :: 0 <= j < k ==> ValidField(fields[j], specs[j])
    requires forall j :: 0 <= j <= k ==> ':' !in fields[j]
    requires !InClass(fields[k][i], specs[k].cls)
    ensures ParseFields(Join(fields, ':') + t, specs).None?
    decreases k
  {
    var s := Join(fields, ':') + t;
    var f := fields[0];
    var tail := Join(fields[1..], ':') + t;
    assert s == f + ([':'] + tail);
    if k == 0 {
      var n := Leading(s, specs[0].cls);
      assert s[i] == f[i];
      assert s[n] == f[n];
    } else {
      LeadingOf(f, [':'] + tail, specs[0].cls);
      assert s[|f| + 1..] == tail;
      ParseFieldsRejects(fields[1..], t, specs[1..], k - 1, i);
    }
  }

  /* ---------------- read_active_tasks ---------------- */

  /** The id a line of the index contributes: its stripped text, when that is an id line. */
  function TaskOfLine(line: string): (r: seq<MigrationTask>)
    ensures |r| <= 1
  {
    var l := Strip(line);
    if StartsWith(l, "UPID:") && ParseUpid(l).Some? then [ParseUpid(l).value] else []
  }

  /** The tasks of the index lines, in file order. */
  function IndexTasks(lines: seq<string>): (r: seq<MigrationTask>)
    ensures |r| <= |lines|
  {
    if lines == [] then [] else IndexTasks(lines[..|lines| - 1]) + TaskOfLine(lines[|lines| - 1])
  }

  lemma IndexTasksStep(lines: seq<string>, i: nat)
    requires i < |lines|
    ensures IndexTasks(lines[..i + 1]) == IndexTasks(lines[..i]) + TaskOfLine(lines[i])
  {
    assert lines[..i + 1][..i] == lines[..i];
  }

  /** Reading two parts of the index one after the other gives the tasks of each, in order. */
  lemma {:induction false} IndexTasksAppend(a: seq<string>, b: seq<string>)
    ensures IndexTasks(a + b) == IndexTasks(a) + IndexTasks(b)
    decreases |b|
  {
    if b == [] {
      assert a + b == a;
    } else {
      var b' := b[..|b| - 1];
      var last := b[|b| - 1];
      assert b == b' + [last];
      assert a + b == (a + b') + [last];
      IndexTasksAppend(a, b');
      IndexTasksSnoc(a + b', last);
      IndexTasksSnoc(b', last);
    }
  }

  lemma IndexTasksSnoc(xs: seq<string>, x: string)
    ensures IndexTasks(xs + [x]) == IndexTasks(xs) + TaskOfLine(x)
  {
    assert (xs + [x])[..|xs|] == xs;
  }

  /** Every task read comes from a line that parses to it. */
  lemma {:induction false} IndexTasksFromLines(lines: seq<string>, t: MigrationTask)
    requires t in IndexTasks(lines)
    ensures exists i :: 0 <= i < |lines| && ParseUpid(Strip(lines[i])) == Some(t)
    decreases |lines|
  {
    var init := lines[..|lines| - 1];
    if t in IndexTasks(init) {
      IndexTasksFromLines(init, t);
      var i :| 0 <= i < |init| && ParseUpid(Strip(init[i])) == Some(t);
      assert init[i] == lines[i];
    } else {
      assert ParseUpid(Strip(lines[|lines| - 1])) == Some(t);
    }
  }

  /**
   * `read_active_tasks`: `file` is the index's lines, or None when it does
   * not exist (the error message goes to standard error).
   */
  method ReadActiveTasks(file: Option<seq<string>>) returns (tasks: seq<MigrationTask>)
    ensures file.None? ==> tasks == []
    ensures file.Some? ==> tasks == IndexTasks(file.value)
  {
    tasks := [];
    if file.None? {
      return;
    }
    var lines := file.value;
    var i := 0;
    while i < |lines|
      invariant 0 <= i <= |lines|
      invariant tasks == IndexTasks(lines[..i])
    {
      var current := Strip(lines[i]);
      if StartsWith(current, "UPID:") {
        var info := ParseUpid(current);
        if info.Some? {
          tasks := tasks + [info.value];
        }
      }
      IndexTasksStep(lines, i);
      i := i + 1;
    }
    assert lines[..i] == lines;
  }

  /** A migration that is still running: action "qmigrate" and status "0" or "". */
  predicate IsOngoingMigration(t: MigrationTask)
  {
    t.action == "qmigrate" && (t.status == "0" || t.status == "")
  }

  /** The list comprehension at the top of `main`. */
  function OngoingMigrations(tasks: seq<MigrationTask>): (r: seq<MigrationTask>)
    ensures forall t :: t in r ==> t in tasks && IsOngoingMigration(t)
    ensures forall t :: t in tasks && IsOngoingMigration(t) ==> t in r
  {
    if tasks == [] then []
    else (if IsOngoingMigration(tasks[0]) then [tasks[0]] else []) + OngoingMigrations(tasks[1..])
  }

  /** Filtering a concatenation filters each part. */
  lemma {:induction false} OngoingAppend(a: seq<MigrationTask>, b: seq<MigrationTask>)
    ensures OngoingMigrations(a + b) == OngoingMigrations(a) + OngoingMigrations(b)
    decreases |a|
  {
    if a != [] {
      assert (a + b)[0] == a[0];
      assert (a + b)[1..] == a[1..] + b;
      OngoingAppend(a[1..], b);
    } else {
      assert a + b == b;
    }
  }

  /**
   * The comprehension keeps index order and repeats: an ongoing migration at
   * index `k` is listed right after the ongoing migrations before it, so the
   * numbered list `main` offers follows the index file.
   */
  lemma OngoingInIndexOrder(tasks: seq<MigrationTask>, k: nat)
    requires k < |tasks|
    ensures var before := OngoingMigrations(tasks[..k]);
      var r := OngoingMigrations(tasks);
      && |before| + (if IsOngoingMigration(tasks[k]) then 1 else 0) <= |r|
      && r[..|before|] == before
      && (IsOngoingMigration(tasks[k]) ==> r[|before|] == tasks[k])
  {
    var pre, post := tasks[..k], tasks[k + 1..];
    assert tasks == pre + ([tasks[k]] + post);
    OngoingAppend([tasks[k]], post);
    OngoingAppend(pre, [tasks[k]] + post);
  }

  /* ---------------- find_task_logfile ---------------- */

  /** The file system: the listing of each directory that exists, and the regular files. */
  datatype FileSystem = FileSystem(dirs: map<string, seq<string>>, files: set<string>)

  const TasksRoot := "/var/log/pve/tasks/"
  const HexFolders := "0123456789ABCDEF"

  /** Two path components joined as Python joins them: an absolute second part wins, and a slash is added only when missing. */
  function PathJoin(a: string, b: string): string
  {
    if StartsWith(b, "/") then b
    else if a == [] || a[|a| - 1] == '/' then a + b
    else a + "/" + b
  }

  /** The exact file name tried: the id with one trailing colon. */
  function CandidateName(upid: string): string
  {
    if EndsWith(upid, ":") then upid else upid + ":"
  }

  /** The exact-name test adds nothing to the prefix test: the candidate starts with the id. */
  lemma CandidateStartsWithId(upid: string, name: string)
    ensures name == CandidateName(upid) ==> StartsWith(name, upid)
  {
    AppendEnds(upid, ":");
  }

  predicate NameMatches(name: string, upid: string)
  {
    name == CandidateName(upid) || StartsWith(name, upid)
  }

  /** The first entry of `names`, in listing order, that matches and is a regular file. */
  function FirstInListing(fs: FileSystem, folder: string, names: seq<string>, upid: string): (r: Option<string>)
    ensures r.Some? ==> r.value in fs.files
    ensures r.Some? ==>
              exists i :: 0 <= i < |names| && NameMatches(names[i], upid) && r.value == PathJoin(folder, names[i])
  {
    if names == [] then None
    else
      var path := PathJoin(folder, names[0]);
      if NameMatches(names[0], upid) && path in fs.files then Some(path)
      else
        var r := FirstInListing(fs, folder, names[1..], upid);
        if r.Some? then
          ghost var i :| 0 <= i < |names[1..]| && NameMatches(names[1..][i], upid)
            && r.value == PathJoin(folder, names[1..][i]);
          assert names[1..][i] == names[i + 1];
          r
        else r
  }

  /** The scan of one folder: nothing when it is not a directory. */
  function ScanFolder(fs: FileSystem, folder: string, upid: string): Option<string>
  {
    if folder in fs.dirs then FirstInListing(fs, folder, fs.dirs[folder], upid) else None
  }

  /** The fallback scan over the folders from `HexFolders[i]` on. */
  function FallbackScan(fs: FileSystem, upid: string, i: nat): Option<string>
    requires i <= 16
    decreases 16 - i
  {
    if i == 16 then None
    else
      var r := ScanFolder(fs, TasksRoot + [HexFolders[i]], upid);
      if r.Some? then r else FallbackScan(fs, upid, i + 1)
  }

  /** The folder named by the first character of the fifth field, upper-cased, if there is one. */
  function ExpectedFolder(upid: string): Option<string>
  {
    var parts := Split(upid, ':');
    if |parts| < 5 || parts[4] == [] then None else Some(TasksRoot + [Upper(parts[4][0])])
  }

  /** The path find_task_logfile settles on. */
  function LocateMigrationLog(fs: FileSystem, upid: string): Option<string>
  {
    match ExpectedFolder(upid)
    case None => None
    case Some(folder) =>
      var r := ScanFolder(fs, folder, upid);
      if r.Some? then r else FallbackScan(fs, upid, 0)
  }

  /** `for filename in os.listdir(folder)` with the match test. */
  method ScanListing(fs: FileSystem, folder: string, upid: string) returns (r: Option<string>)
    ensures r == ScanFolder(fs, folder, upid)
  {
    if folder !in fs.dirs {
      return None;
    }
    var names := fs.dirs[folder];
    var i := 0;
    while i < |names|
      invariant 0 <= i <= |names|
      invariant FirstInListing(fs, folder, names[i..], upid) == FirstInListing(fs, folder, names, upid)
    {
      var filename := names[i];
      if filename == CandidateName(upid) || StartsWith(filename, upid) {
        var path := PathJoin(folder, filename);
        if path in fs.files {
          return Some(path);
        }
      }
      assert names[i..][1..] == names[i + 1..];
      i := i + 1;
    }
    return None;
  }

  /**
   * `find_task_logfile`: None when the id has no fifth colon field or it is
   * empty; otherwise the expected folder, then every folder 0-F in order.
   */
  method FindTaskLogfile(fs: FileSystem, upid: string) returns (r: Option<string>)
    ensures r == LocateMigrationLog(fs, upid)
  {
    var parts := Split(upid, ':');
    if |parts| < 5 || parts[4] == [] {
      return None;
    }
    var expected := TasksRoot + [Upper(parts[4][0])];
    r := ScanListing(fs, expected, upid);
    if r.Some? {
      return;
    }
    var i := 0;
    while i < 16
      invariant 0 <= i <= 16
      invariant FallbackScan(fs, upid, i) == LocateMigrationLog(fs, upid)
    {
      r := ScanListing(fs, TasksRoot + [HexFolders[i]], upid);
      if r.Some? {
        return;
      }
      i := i + 1;
    }
    return None;
  }

  /** A path found is a regular file listed in some folder under a name that starts with the id. */
  lemma {:induction false} FallbackFound(fs: FileSystem, upid: string, i: nat)
    requires i <= 16 && FallbackScan(fs, upid, i).Some?
    ensures FallbackScan(fs, upid, i).value in fs.files
    ensures exists folder, name ::
              folder in fs.dirs && name in fs.dirs[folder] && StartsWith(name, upid)
              && FallbackScan(fs, upid, i).value == PathJoin(folder, name)
    decreases 16 - i
  {
    var folder := TasksRoot + [HexFolders[i]];
    var r := ScanFolder(fs, folder, upid);
    if r.Some? {
      FoundInFolder(fs, folder, upid);
    } else {
      FallbackFound(fs, upid, i + 1);
    }
  }

  lemma FoundInFolder(fs: FileSystem, folder: string, upid: string)
    requires ScanFolder(fs, folder, upid).Some?
    ensures ScanFolder(fs, folder, upid).value in fs.files
    ensures exists name ::
              folder in fs.dirs && name in fs.dirs[folder] && StartsWith(name, upid)
              && ScanFolder(fs, folder, upid).value == PathJoin(folder, name)
  {
    var names := fs.dirs[folder];
    var i :| 0 <= i < |names| && NameMatches(names[i], upid)
      && ScanFolder(fs, folder, upid).value == PathJoin(folder, names[i]);
    CandidateStartsWithId(upid, names[i]);
  }

  /** Whatever find_task_logfile returns is a regular file listed under a name starting with the id. */
  lemma LocatedLogIsListed(fs: FileSystem, upid: string)
    requires LocateMigrationLog(fs, upid).Some?
    ensures LocateMigrationLog(fs, upid).value in fs.files
    ensures exists folder, name ::
              folder in fs.dirs && name in fs.dirs[folder] && StartsWith(name, upid)
              && LocateMigrationLog(fs, upid).value == PathJoin(folder, name)
  {
    var folder := ExpectedFolder(upid).value;
    if ScanFolder(fs, folder, upid).Some? {
      FoundInFolder(fs, folder, upid);
    } else {
      FallbackFound(fs, upid, 0);
    }
  }

  /** An id with fewer than five colon fields has no log file. */
  lemma ShortIdHasNoLog(fs: FileSystem, fields: seq<string>)
    requires 1 <= |fields| < 5
    requires forall k, j :: 0 <= k < |fields| && 0 <= j < |fields[k]| ==> fields[k][j] != ':'
    ensures LocateMigrationLog(fs, Join(fields, ':')).None?
  {
    SplitJoin(fields, ':');
  }
}
