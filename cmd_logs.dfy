/**
 * The `logs view` and `logs tail` commands (cmd/logs.go): how many lines
 * to ask for and from where, the two GetLogFile requests a tail makes,
 * and the heading `logs view` prints above the content.
 *
 * The server answers a request (lines, startLine) with a LogFileContent or
 * an error; that answer is the parameter `fetch`.
 */
module LogsCmd {
  import opened Common
  import opened UnraidClient
  import F = Formatter

  /** The `lines` and `startLine` arguments of one GetLogFile call. */
  datatype Request = Request(lines: int, startLine: int)

  const FetchFailed := "failed to get log file: "

  /**
   * Where a tail starts: `lines` before the end, or the first line when
   * the file is no longer than that.
   */
  function TailStart(total: int, lines: int): (start: int)
    ensures start >= 0
    ensures total > lines ==> start + lines == total
    ensures total <= lines ==> start == 0
    ensures lines >= 0 && total >= 0 ==> start <= total
  {
    if total > lines then total - lines else 0
  }

  /**
   * For a non-negative line count the tail window [start, start + lines)
   * reaches the last line and holds no more lines than were asked for,
   * and all of them when the file is shorter.
   */
  lemma TailWindow(total: int, lines: int)
    requires total >= 0 && lines >= 0
    ensures TailStart(total, lines) + lines >= total
    ensures total - TailStart(total, lines) == if total > lines then lines else total
  {
  }

  function Wrapped(r: Result<LogFileContent>): (w: Result<LogFileContent>)
    ensures r.Ok? ==> w == r
    ensures r.Err? ==> w == Err(FetchFailed + r.msg)
  {
    match r
    case Ok(_) => r
    case Err(msg) => Err(FetchFailed + msg)
  }

  /**
   * The requests of `logs view` (with `tail` as its --tail flag) and of
   * `logs tail` (tail = true), and what the command gets from them: a tail
   * first asks for the whole file to learn its length, then for `lines`
   * lines from TailStart; otherwise there is one request from line 0.
   * The outcome is the answer to the last request, its error wrapped.
   */
  function Reading(tail: bool, lines: int, fetch: Request -> Result<LogFileContent>)
    : (out: (Result<LogFileContent>, seq<Request>))
    ensures 1 <= |out.1| <= 2
    ensures out.0.Ok? ==> out.0 == fetch(out.1[|out.1| - 1])
    ensures out.0.Err? ==> fetch(out.1[|out.1| - 1]).Err? && out.0.msg == FetchFailed + fetch(out.1[|out.1| - 1]).msg
    ensures !tail ==> out.1 == [Request(lines, 0)]
    ensures tail ==> out.1[0] == Request(0, 0) && (|out.1| == 2 <==> fetch(Request(0, 0)).Ok?)
    ensures tail && |out.1| == 2 ==>
              out.1[1] == Request(lines, TailStart(fetch(Request(0, 0)).value.totalLines, lines))
  {
    if !tail then (Wrapped(fetch(Request(lines, 0))), [Request(lines, 0)])
    else if fetch(Request(0, 0)).Err? then (Err(FetchFailed + fetch(Request(0, 0)).msg), [Request(0, 0)])
    else
      var second := Request(lines, TailStart(fetch(Request(0, 0)).value.totalLines, lines));
      (Wrapped(fetch(second)), [Request(0, 0), second])
  }

  /** The request sequence of both commands, built step by step. */
  method ReadLog(tail: bool, lines: int, fetch: Request -> Result<LogFileContent>)
    returns (r: Result<LogFileContent>, requests: seq<Request>)
    ensures (r, requests) == Reading(tail, lines, fetch)
  {
    requests := [];
    var startLine := 0;
    if tail {
      requests := [Request(0, 0)];
      var info := fetch(Request(0, 0));
      if info.Err? {
        return Err(FetchFailed + info.msg), requests;
      }
      if info.value.totalLines > lines {
        startLine := info.value.totalLines - lines;
      }
    }
    assert tail ==> startLine == TailStart(fetch(Request(0, 0)).value.totalLines, lines);
    requests := requests + [Request(lines, startLine)];
    assert requests == if tail then [Request(0, 0), Request(lines, startLine)] else [Request(lines, startLine)];
    var content := fetch(Request(lines, startLine));
    if content.Err? {
      assert Wrapped(content) == Err(FetchFailed + content.msg);
      return Err(FetchFailed + content.msg), requests;
    }
    r := content;
    assert r == Wrapped(content);
  }

  /** The heading `logs view` prints between the totals and the content. */
  function Heading(tail: bool, lines: int): (h: seq<string>)
    ensures 1 <= |h| && h[|h| - 1] == ""
    ensures |h| == 2 <==> tail || lines > 0
    ensures |h| == 1 <==> !tail && lines <= 0
    ensures tail ==> h[0] == "Showing last " + IntToString(lines) + " lines:"
    ensures !tail && lines > 0 ==> h[0] == "Showing first " + IntToString(lines) + " lines:"
  {
    if tail then ["Showing last " + IntToString(lines) + " lines:", ""]
    else if lines > 0 then ["Showing first " + IntToString(lines) + " lines:", ""]
    else [""]
  }

  /** The lines `logs view` prints in table mode. */
  function ViewLines(c: LogFileContent, tail: bool, lines: int): (out: seq<string>)
    ensures |out| == 3 + |Heading(tail, lines)|
    ensures out[0] == "Log file: " + c.path
    ensures out[1] == "Total lines: " + IntToString(c.totalLines)
    ensures out[|out| - 1] == c.content
  {
    ["Log file: " + c.path, "Total lines: " + IntToString(c.totalLines)] + Heading(tail, lines) + [c.content]
  }

  /**
   * Both commands: the content and its heading in table mode, the content
   * record otherwise; a failed request prints nothing.
   */
  method ShowLog(f: F.Formatter, heading: bool, tail: bool, lines: int, fetch: Request -> Result<LogFileContent>)
    returns (err: Option<string>)
    modifies f
    ensures var r := Reading(tail, lines, fetch).0;
            && (r.Err? ==> err == Some(r.msg) && f.output == old(f.output))
            && (r.Ok? && f.format == F.TableFormat ==>
                  err == None &&
                  f.output == old(f.output) +
                    F.Lines(if heading then ViewLines(r.value, tail, lines) else [r.value.content]))
            && (r.Ok? && f.format != F.TableFormat ==>
                  err == None && f.output == old(f.output) + [F.Encoded(f.format, F.LogFile(r.value))])
  {
    var r, requests := ReadLog(tail, lines, fetch);
    if r.Err? {
      return Some(r.msg);
    }
    if f.format == F.TableFormat {
      f.output := f.output + F.Lines(if heading then ViewLines(r.value, tail, lines) else [r.value.content]);
    } else {
      var ignored := f.Print(F.LogFile(r.value));
    }
    err := None;
  }
}
