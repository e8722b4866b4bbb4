/**
  The popup's presentation logic: the status line and which buttons are enabled (updateStatus),
  the log panel that keeps only the most recent entries (addLog), and the file-name sanitiser
  shared by both popups.
 */
module PopupUi {
  import opened Wrappers
  import opened Text

  // ---------------------------------------------------------------------------
  // updateStatus
  // ---------------------------------------------------------------------------

  /** The label and CSS class shown for a status. */
  datatype StatusEntry = StatusEntry(text: string, cssClass: string)

  /** What updateStatus shows: the status entry and the disabled flag of each button. */
  datatype View = View(
    status: StatusEntry,
    startDisabled: bool,
    stopDisabled: bool,
    exportDisabled: bool,
    exportMdDisabled: bool)

  const ErrorText := "错误"

  /** The status table; an unknown status falls back to the error entry. */
  function StatusEntryOf(status: string, message: Option<string>): (e: StatusEntry)
    ensures status !in {"idle", "scraping", "paused", "completed", "stopped", "connecting"} ==>
      e == StatusEntry(if message.Some? && message.value != "" then message.value else ErrorText, "status-error")
    ensures e.cssClass == "status-scraping" <==> status in {"scraping", "paused", "connecting"}
  {
    match status
    case "idle" => StatusEntry("就绪", "status-idle")
    case "scraping" => StatusEntry("抓取中...", "status-scraping")
    case "paused" => StatusEntry("暂停下载", "status-scraping")
    case "completed" => StatusEntry("完成", "status-completed")
    case "stopped" => StatusEntry("已停止", "status-stopped")
    case "connecting" => StatusEntry("连接中...", "status-scraping")
    case _ => StatusEntry(if message.Some? && message.value != "" then message.value else ErrorText, "status-error")
  }

  /**
    updateStatus: start is disabled while scraping or connecting, stop is enabled only while
    scraping, and both exports are enabled exactly when there is data and no scrape is running.
   */
  function UpdateStatus(status: string, message: Option<string>, scrapedCount: nat, isScraping: bool): (v: View)
    ensures v.status == StatusEntryOf(status, message)
    ensures v.startDisabled <==> status == "scraping" || status == "connecting"
    ensures !v.stopDisabled <==> status == "scraping"
    ensures !v.exportDisabled <==> scrapedCount > 0 && !isScraping
    ensures v.exportMdDisabled == v.exportDisabled
  {
    var canExport := scrapedCount > 0 && !isScraping;
    View(
      StatusEntryOf(status, message),
      status in ["scraping", "connecting"],
      status !in ["scraping"],
      !canExport,
      !canExport)
  }

  /** Start and stop are never enabled together, and at most one status enables stop. */
  lemma StartStopExclusive(status: string, message: Option<string>, scrapedCount: nat, isScraping: bool)
    ensures var v := UpdateStatus(status, message, scrapedCount, isScraping);
      !v.startDisabled ==> v.stopDisabled
    ensures var v := UpdateStatus(status, message, scrapedCount, isScraping);
      !v.stopDisabled ==> v.status == StatusEntry("抓取中...", "status-scraping")
  {
  }

  // ---------------------------------------------------------------------------
  // addLog
  // ---------------------------------------------------------------------------

  /** How many entries the log panel keeps. */
  const MaxLogs := 100

  /** One rendered log line: the time of day, the level and the message. */
  datatype LogLine = LogLine(time: string, level: string, message: string)

  /** The last `n` elements of `s` (all of them when there are fewer). */
  function LastN<T>(s: seq<T>, n: nat): (r: seq<T>)
    ensures |r| == if |s| < n then |s| else n
    ensures forall i :: 0 <= i < |r| ==> r[i] == s[|s| - |r| + i]
  {
    if |s| <= n then s else s[|s| - n..]
  }

  /** Trimming to the last n, then adding one and trimming again, is trimming everything once. */
  lemma LastNAppend<T>(s: seq<T>, x: T, n: nat)
    requires n > 0
    ensures LastN(LastN(s, n) + [x], n) == LastN(s + [x], n)
  {
    var a := LastN(LastN(s, n) + [x], n);
    var b := LastN(s + [x], n);
    assert |a| == |b|;
    forall i | 0 <= i < |a|
      ensures a[i] == b[i]
    {
      var t := LastN(s, n);
      if i == |a| - 1 {
      } else {
        assert a[i] == (t + [x])[|t| + 1 - |a| + i];
        assert a[i] == t[|t| + 1 - |a| + i];
      }
    }
  }

  /** The log lines, of every call in `lines`, that the panel shows after an empty start. */
  function Shown(lines: seq<LogLine>): seq<LogLine> {
    if lines == [] then [] else LastN(Shown(lines[..|lines| - 1]) + [lines[|lines| - 1]], MaxLogs)
  }

  /** The panel always shows exactly the most recent (up to) 100 lines ever logged, in order. */
  lemma {:induction false} ShownIsRecent(lines: seq<LogLine>)
    ensures Shown(lines) == LastN(lines, MaxLogs)
  {
    if lines != [] {
      var front, last := lines[..|lines| - 1], lines[|lines| - 1];
      assert front + [last] == lines;
      calc {
        Shown(lines);
        LastN(Shown(front) + [last], MaxLogs);
        { ShownIsRecent(front); }
        LastN(LastN(front, MaxLogs) + [last], MaxLogs);
        { LastNAppend(front, last, MaxLogs); }
        LastN(front + [last], MaxLogs);
      }
    }
  }

  /** The log container's children. */
  class LogPanel {
    var entries: seq<LogLine>

    constructor ()
      ensures entries == []
    {
      entries := [];
    }

    /** addLog: append the line, then remove the first child while there are more than 100. */
    method AddLog(message: string, level: string, time: string)
      modifies this
      ensures entries == LastN(old(entries) + [LogLine(time, level, message)], MaxLogs)
      ensures |entries| <= MaxLogs && entries[|entries| - 1] == LogLine(time, level, message)
    {
      entries := entries + [LogLine(time, level, message)];
      ghost var all := entries;
      while |entries| > MaxLogs
        invariant MaxLogs <= |entries| <= |all| || entries == all
        invariant entries == all[|all| - |entries|..]
        decreases |entries|
      {
        entries := entries[1..];
      }
    }
  }

  // ---------------------------------------------------------------------------
  // sanitizeFilename
  // ---------------------------------------------------------------------------

  /** The characters a file name may not contain. */
  predicate Forbidden(c: char) {
    c in {'/', '\\', ':', '*', '?', '"', '<', '>', '|'}
  }

  const FilenameLength := 50

  /** sanitizeFilename: forbidden characters become `_`, then the name is cut to 50 characters. */
  function Sanitize(name: string): (r: string)
    ensures |r| == if |name| < FilenameLength then |name| else FilenameLength
    ensures forall i :: 0 <= i < |r| ==> r[i] == if Forbidden(name[i]) then '_' else name[i]
    ensures forall i :: 0 <= i < |r| ==> !Forbidden(r[i])
  {
    var replaced := seq(|name|, i requires 0 <= i < |name| => if Forbidden(name[i]) then '_' else name[i]);
    Take(replaced, FilenameLength)
  }

  /** A sanitised name is left as it is by a second sanitisation. */
  lemma SanitizeIdempotent(name: string)
    ensures Sanitize(Sanitize(name)) == Sanitize(name)
  {
  }
}
