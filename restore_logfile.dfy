/**
 * Locating a task's log file under the Proxmox task archive
 * (find_task_logfile and resolve_restore_logfile). The file system is the
 * set of paths that exist.
 */
module RestoreLogfile {
  import opened Wrappers
  import opened Text
  import RestoreTasks

  /** The sixteen archive sub-folders, in scan order. */
  const HexArchiveFolders: string := "0123456789ABCDEF"

  /** `root / folder / upid` */
  function TaskPath(root: string, folder: char, upid: string): string
  {
    root + "/" + [folder] + "/" + upid
  }

  /** The process-start field: exactly eight hexadecimal digits. */
  predicate IsPstart(p: string) { |p| == 8 && forall i :: 0 <= i < 8 ==> IsHexDigit(p[i]) }

  /**
   * The folder an id's log is archived under: the upper-cased first digit of
   * its fifth field, or None when the id has fewer than eight colon fields,
   * does not start with "UPID", or its fifth field is not eight hex digits.
   */
  function ExpectedFolder(upid: string): (r: Option<char>)
    ensures r.Some? ==> r.value in HexArchiveFolders
  {
    var parts := Split(upid, ':');
    if |parts| < 8 || parts[0] != "UPID" then None
    else if !IsPstart(parts[4]) then None
    else
      assert IsHexDigit(parts[4][0]);
      Some(Upper(parts[4][0]))
  }

  /** A well-formed id names the folder of its fifth field's first digit. */
  lemma ExpectedFolderOfFields(fields: seq<string>)
    requires |fields| >= 8 && fields[0] == "UPID" && IsPstart(fields[4])
    requires forall k, j :: 0 <= k < |fields| && 0 <= j < |fields[k]| ==> fields[k][j] != ':'
    ensures ExpectedFolder(Join(fields, ':')) == Some(Upper(fields[4][0]))
  {
    SplitJoin(fields, ':');
  }

  /** An id with fewer than eight colon fields is rejected before any lookup. */
  lemma ShortIdRejected(fields: seq<string>)
    requires 1 <= |fields| < 8
    requires forall k, j :: 0 <= k < |fields| && 0 <= j < |fields[k]| ==> fields[k][j] != ':'
    ensures ExpectedFolder(Join(fields, ':')).None?
  {
    SplitJoin(fields, ':');
  }

  /** The test suite's malformed id has three fields. */
  lemma MalformedIdRejected()
    ensures ExpectedFolder("UPID:node:bad").None?
  {
    var fields := ["UPID", "node", "bad"];
    assert Join(fields[2..], ':') == "bad";
    assert Join(fields[1..], ':') == "node:bad";
    assert Join(fields, ':') == "UPID:node:bad";
    ShortIdRejected(fields);
  }

  /** The first existing candidate among the folders from `i` on, skipping `expected`. */
  function ScanFolders(fs: set<string>, root: string, upid: string, expected: char, i: nat): (r: Option<string>)
    requires i <= 16
    decreases 16 - i
  {
    if i == 16 then None
    else
      var candidate := TaskPath(root, HexArchiveFolders[i], upid);
      if HexArchiveFolders[i] != expected && candidate in fs then Some(candidate)
      else ScanFolders(fs, root, upid, expected, i + 1)
  }

  /** The path find_task_logfile settles on. */
  function LocateLogfile(fs: set<string>, root: string, upid: string): Option<string>
  {
    match ExpectedFolder(upid)
    case None => None
    case Some(e) =>
      if TaskPath(root, e, upid) in fs then Some(TaskPath(root, e, upid))
      else ScanFolders(fs, root, upid, e, 0)
  }

  /**
   * find_task_logfile: the expected folder first, then the other fifteen in
   * 0-F order; the first path that exists, or None.
   */
  method FindTaskLogfile(fs: set<string>, root: string, upid: string) returns (r: Option<string>)
    ensures r == LocateLogfile(fs, root, upid)
    ensures ExpectedFolder(upid).None? ==> r.None?
    ensures ExpectedFolder(upid).Some? ==>
      var e := ExpectedFolder(upid).value;
      && (TaskPath(root, e, upid) in fs ==> r == Some(TaskPath(root, e, upid)))
      && (r.None? <==> forall k :: 0 <= k < 16 ==> TaskPath(root, HexArchiveFolders[k], upid) !in fs)
      && (r.Some? ==>
            && r.value in fs
            && exists k :: 0 <= k < 16 && r.value == TaskPath(root, HexArchiveFolders[k], upid)
                 && (HexArchiveFolders[k] != e ==>
                       && TaskPath(root, e, upid) !in fs
                       && forall j :: 0 <= j < k ==> TaskPath(root, HexArchiveFolders[j], upid) !in fs))
  {
    var expected := ExpectedFolder(upid);
    if expected.None? {
      return None;
    }
    var e := expected.value;
    var preferred := TaskPath(root, e, upid);
    if preferred in fs {
      assert exists k :: 0 <= k < 16 && HexArchiveFolders[k] == e;
      return Some(preferred);
    }
    var i := 0;
    while i < 16
      invariant 0 <= i <= 16
      invariant forall j :: 0 <= j < i ==> TaskPath(root, HexArchiveFolders[j], upid) !in fs
      invariant ScanFolders(fs, root, upid, e, i) == LocateLogfile(fs, root, upid)
    {
      var folder := HexArchiveFolders[i];
      if folder != e {
        var candidate := TaskPath(root, folder, upid);
        if candidate in fs {
          return Some(candidate);
        }
      }
      i := i + 1;
    }
    return None;
  }

  /** The path resolve_restore_logfile settles on. */
  function ResolvedLogfile(fs: set<string>, root: string, task: RestoreTasks.Task): Option<string>
  {
    if task.upid == [] then None else LocateLogfile(fs, root, task.upid)
  }

  /** resolve_restore_logfile: a task without an id has no log file. */
  method ResolveRestoreLogfile(fs: set<string>, root: string, task: RestoreTasks.Task) returns (r: Option<string>)
    ensures r == ResolvedLogfile(fs, root, task)
    ensures task.upid == [] ==> r.None?
    ensures r.Some? ==> r.value in fs && ExpectedFolder(task.upid).Some?
  {
    if task.upid == [] {
      return None;
    }
    r := FindTaskLogfile(fs, root, task.upid);
  }
}
