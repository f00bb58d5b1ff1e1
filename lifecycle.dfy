/**
 * The build lifecycle operations of `ISOBuilderLogic`: queueing a build,
 * cancelling it, and reading its log. The clock, the outcome of the
 * database commit and the filesystem are parameters.
 */
module Lifecycle {
  import opened Wrappers
  import opened Models
  import PyText

  /** The message `cancel_build` records on a cancelled build. */
  const CancelMessage: string := "Build cancelled by user"

  /** What `get_build_logs` answers when there is no log yet. */
  const NoLogsYet: string := "No logs available yet."

  /** The task identifier `iso-<id>-<seconds>` assigned when a build is queued. */
  function TaskId(id: nat, seconds: int): string {
    "iso-" + PyText.NatToString(id) + "-" + PyText.IntToString(seconds)
  }

  /** If `a` and `c` hold no dash and `a + "-" + x == c + "-" + y`, then `a == c` and `x == y`. */
  lemma DashSplitUnique(a: string, x: string, c: string, y: string)
    requires '-' !in a && '-' !in c
    requires a + "-" + x == c + "-" + y
    ensures a == c && x == y
  {
    var t := a + "-" + x;
    assert t[|a|] == '-' && t[|c|] == '-';
    assert forall k :: 0 <= k < |a| ==> t[k] == a[k] != '-';
    assert forall k :: 0 <= k < |c| ==> t[k] == c[k] != '-';
    assert a == t[..|a|] == c;
    assert x == t[|a| + 1..] == y;
  }

  /** Two task identifiers are equal only for the same build id and the same second. */
  lemma TaskIdInjective(id1: nat, seconds1: int, id2: nat, seconds2: int)
    requires TaskId(id1, seconds1) == TaskId(id2, seconds2)
    ensures id1 == id2 && seconds1 == seconds2
  {
    var a, c := PyText.NatToString(id1), PyText.NatToString(id2);
    var x, y := PyText.IntToString(seconds1), PyText.IntToString(seconds2);
    assert TaskId(id1, seconds1) == "iso-" + (a + "-" + x);
    assert TaskId(id2, seconds2) == "iso-" + (c + "-" + y);
    assert a + "-" + x == TaskId(id1, seconds1)[4..] == c + "-" + y;
    PyText.NatToStringDigits(id1);
    PyText.NatToStringDigits(id2);
    assert '-' !in a && '-' !in c;
    DashSplitUnique(a, x, c, y);
    PyText.NatToStringInjective(id1, id2);
    PyText.IntToStringInjective(seconds1, seconds2);
  }

  /** The task identifier mentions both the build id and the second it was queued at. */
  lemma TaskIdMentions(id: nat, seconds: int)
    ensures PyText.Contains(TaskId(id, seconds), PyText.NatToString(id))
    ensures PyText.Contains(TaskId(id, seconds), PyText.IntToString(seconds))
  {
    var n, s := PyText.NatToString(id), PyText.IntToString(seconds);
    assert PyText.StartsWith(n, n);
    PyText.ContainsAppend(n, "-" + s, n);
    PyText.ContainsPrepend("iso-", n + "-" + s, n);
    assert TaskId(id, seconds) == "iso-" + (n + "-" + s);
    assert PyText.StartsWith(s, s);
    PyText.ContainsPrepend("iso-" + n + "-", s, s);
  }

  /** The lifecycle columns after `queue_build` assigned them, before the commit. */
  function QueuedRow(r: Row, id: nat, now: int, seconds: int): Row {
    r.(status := Pending, submittedOn := Some(now), taskId := Some(TaskId(id, seconds)))
  }

  /** The lifecycle columns after `cancel_build` assigned them, before the commit. */
  function CanceledRow(r: Row, now: int): Row {
    r.(status := Canceled, endedOn := Some(now), errorMessage := Some(CancelMessage))
  }

  /**
   * Queueing keeps `ended_on` consistent with the status exactly when the
   * build had not ended: `queue_build` checks no status, so re-queueing a
   * finished build leaves a pending build with an end time.
   */
  lemma QueuedConsistentIff(r: Row, id: nat, now: int, seconds: int)
    ensures EndedIffTerminal(QueuedRow(r, id, now, seconds)) <==> r.endedOn.None?
  {
  }

  /** A cancelled row is terminal and has an end time, so it keeps the invariant. */
  lemma CanceledConsistent(r: Row, now: int)
    ensures IsTerminal(CanceledRow(r, now).status)
    ensures EndedIffTerminal(CanceledRow(r, now))
  {
  }

  /** Cancelling never touches the submission time or the task identifier. */
  lemma CancelKeepsQueueStamp(r: Row, now: int)
    ensures CanceledRow(r, now).submittedOn == r.submittedOn
    ensures CanceledRow(r, now).taskId == r.taskId
  {
  }

  /**
   * `queue_build`: mark the build pending, stamp `submitted_on` with `now`,
   * assign the task identifier from the id and a second clock reading
   * `seconds`, and commit. A failed commit rolls back and answers false.
   */
  method QueueBuild(b: ISOBuild, now: int, seconds: int, commitOk: bool) returns (ok: bool)
    modifies b`status, b`submittedOn, b`endedOn, b`taskId, b`errorMessage, b`committed
    ensures ok == commitOk
    ensures ok ==> b.Columns() == QueuedRow(old(b.Columns()), b.id, now, seconds) && b.committed == b.Columns()
    ensures !ok ==> b.Columns() == old(b.committed) && b.committed == old(b.committed)
  {
    b.status := Pending;
    b.submittedOn := Some(now);
    b.taskId := Some(TaskId(b.id, seconds));
    if commitOk {
      b.Commit();
      ok := true;
    } else {
      b.Rollback();
      ok := false;
    }
  }

  /**
   * `cancel_build`: only a pending or running build may be cancelled; it
   * becomes canceled with `ended_on` stamped and the standard message, and
   * is committed. The `ValueError` raised for any other status is caught by
   * the operation's own handler, so that case, like a failed commit, rolls
   * back and answers false.
   */
  method CancelBuild(b: ISOBuild, now: int, commitOk: bool) returns (ok: bool)
    modifies b`status, b`submittedOn, b`endedOn, b`taskId, b`errorMessage, b`committed
    ensures ok <==> Cancellable(old(b.status)) && commitOk
    ensures ok ==> b.Columns() == CanceledRow(old(b.Columns()), now) && b.committed == b.Columns()
    ensures !ok ==> b.Columns() == old(b.committed) && b.committed == old(b.committed)
    ensures !Cancellable(old(b.status)) && old(b.Columns()) == old(b.committed) ==>
              b.status == old(b.status) && b.endedOn == old(b.endedOn)
  {
    if !Cancellable(b.status) {
      b.Rollback();
      return false;
    }
    b.status := Canceled;
    b.endedOn := Some(now);
    b.errorMessage := Some(CancelMessage);
    if commitOk {
      b.Commit();
      ok := true;
    } else {
      b.Rollback();
      ok := false;
    }
  }

  /** What the filesystem holds at a path: a file that reads, or one whose reading raises. */
  datatype FileEntry = Readable(text: string) | Unreadable(reason: string)

  /** `os.path.join(dir, 'build.log')` for a non-empty directory name. */
  function LogFilePath(dir: string): (p: string)
    requires dir != []
    ensures |p| == |dir| + 9 || |p| == |dir| + 10
    ensures PyText.StartsWith(p, dir)
    ensures p[|p| - 10..] == "/build.log"
  {
    if dir[|dir| - 1] == '/' then dir + "build.log" else dir + "/build.log"
  }

  /**
   * `get_build_logs`: the inline log when it is non-empty; otherwise the
   * content of `build.log` in the result directory when that file exists
   * (its read error, if reading raises); otherwise the "no logs" sentinel.
   * `fs` maps the paths that exist to what reading them gives.
   */
  function GetBuildLogs(b: ISOBuild, fs: map<string, FileEntry>): (log: string)
    reads b
    ensures b.buildLog != "" ==> log == b.buildLog
    ensures b.buildLog == "" && b.resultDir != "" && LogFilePath(b.resultDir) in fs ==>
              log == match fs[LogFilePath(b.resultDir)]
                     case Readable(text) => text
                     case Unreadable(reason) => "Error reading logs: " + reason
    ensures b.buildLog == "" && (b.resultDir == "" || LogFilePath(b.resultDir) !in fs) ==> log == NoLogsYet
  {
    if b.buildLog != "" then b.buildLog
    else if b.resultDir != "" && LogFilePath(b.resultDir) in fs then
      match fs[LogFilePath(b.resultDir)]
      case Readable(text) => text
      case Unreadable(reason) => "Error reading logs: " + reason
    else NoLogsYet
  }
}
