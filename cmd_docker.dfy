/**
 * The selection logic of the docker commands (cmd/docker.go): the --state
 * filter of `ls`, the running filter of `ps` and `stats`, display names,
 * the table rows, the argument selection of `stats`, the single-pass
 * lookup of `logs`, the failure collection of `start-all`/`stop-all`, and
 * the choice between the table and the encoder.
 *
 * Container listings come in as values; the API calls made per argument
 * by start-all/stop-all are a function from argument to error.
 */
module DockerCmd {
  import opened Common
  import opened UnraidClient
  import Color
  import F = Formatter
  import Table

  const CheckMark := "\U{2713}"

  // ---------------------------------------------------------------------
  // Filters
  // ---------------------------------------------------------------------

  /** The --state test: the state equals the filter up to letter case. */
  function StateIs(state: string): Container -> bool {
    (c: Container) => EqualFold(c.state, state)
  }

  predicate IsRunning(c: Container) {
    ToLower(c.state) == "running"
  }

  /** `docker ls --state`: an empty filter keeps everything, otherwise the matching containers in order. */
  method FilterByState(containers: seq<Container>, state: string) returns (kept: seq<Container>)
    ensures state == "" ==> kept == containers
    ensures state != "" ==> kept == Filter(containers, StateIs(state))
  {
    if state == "" {
      return containers;
    }
    kept := [];
    var i := 0;
    while i < |containers|
      invariant 0 <= i <= |containers|
      invariant kept == Filter(containers[..i], StateIs(state))
    {
      assert containers[..i + 1][..i] == containers[..i];
      if EqualFold(containers[i].state, state) {
        kept := kept + [containers[i]];
      }
      i := i + 1;
    }
    assert containers[..|containers|] == containers;
  }

  /** What the --state filter keeps: exactly the containers in that state, ignoring case. */
  lemma StateFilterKeeps(containers: seq<Container>, state: string, c: Container)
    requires state != ""
    ensures c in Filter(containers, StateIs(state)) <==> c in containers && EqualFold(c.state, state)
  {
    FilterMembership(containers, StateIs(state), c);
  }

  /** The running filter of `ps` and `stats`. */
  method KeepRunning(containers: seq<Container>) returns (running: seq<Container>)
    ensures running == Filter(containers, IsRunning)
  {
    running := [];
    var i := 0;
    while i < |containers|
      invariant 0 <= i <= |containers|
      invariant running == Filter(containers[..i], IsRunning)
    {
      assert containers[..i + 1][..i] == containers[..i];
      if ToLower(containers[i].state) == "running" {
        running := running + [containers[i]];
      }
      i := i + 1;
    }
    assert containers[..|containers|] == containers;
  }

  // ---------------------------------------------------------------------
  // Names and rows
  // ---------------------------------------------------------------------

  /** Names[0] without one leading "/". */
  function DisplayName(c: Container): (name: string)
    requires |c.names| > 0
    ensures HasPrefix(c.names[0], "/") ==> c.names[0] == "/" + name
    ensures !HasPrefix(c.names[0], "/") ==> name == c.names[0]
  {
    TrimPrefix(c.names[0], "/")
  }

  /** Every container has at least one name (the commands index Names[0]). */
  predicate Named(cs: seq<Container>) {
    forall i :: 0 <= i < |cs| ==> |cs[i].names| > 0
  }

  function AutostartCell(autostart: bool): (cell: string)
    ensures cell == CheckMark <==> autostart
    ensures !autostart ==> cell == ""
  {
    if autostart then CheckMark else ""
  }

  datatype Listing = Ls | Ps | Stats

  function Headers(kind: Listing): seq<string> {
    match kind
    case Ls => ["Name", "Image", "State", "Status", "Autostart"]
    case Ps => ["Name", "Image", "Status", "Autostart"]
    case Stats => ["Name", "State", "Status", "Image"]
  }

  /** The table row of one container for each listing command. */
  function Row(kind: Listing, enabled: bool, c: Container): (row: seq<string>)
    requires |c.names| > 0
    ensures |row| == |Headers(kind)|
    ensures row[0] == DisplayName(c)
    ensures kind == Ls ==> row[1] == c.image && row[2] == Color.ColorizeState(enabled, c.state) &&
                           row[3] == c.status && (row[4] == CheckMark <==> c.autostart)
    ensures kind == Ps ==> row[1] == c.image && row[2] == c.status && (row[3] == CheckMark <==> c.autostart)
    ensures kind == Stats ==> row[1] == Color.ColorizeState(enabled, c.state) && row[2] == c.status && row[3] == c.image
  {
    var name := DisplayName(c);
    match kind
    case Ls => [name, c.image, Color.ColorizeState(enabled, c.state), c.status, AutostartCell(c.autostart)]
    case Ps => [name, c.image, c.status, AutostartCell(c.autostart)]
    case Stats => [name, Color.ColorizeState(enabled, c.state), c.status, c.image]
  }

  /** One row per container, in list order. */
  method BuildRows(kind: Listing, enabled: bool, cs: seq<Container>) returns (rows: seq<seq<string>>)
    requires Named(cs)
    ensures |rows| == |cs|
    ensures forall i :: 0 <= i < |cs| ==> rows[i] == Row(kind, enabled, cs[i])
  {
    rows := [];
    var i := 0;
    while i < |cs|
      invariant 0 <= i <= |cs|
      invariant RowsUpTo(rows, kind, enabled, cs, i)
    {
      RowStep(rows, kind, enabled, cs, i);
      rows := rows + [Row(kind, enabled, cs[i])];
      i := i + 1;
    }
  }

  /** `rows` holds the rows of the first `n` containers. */
  predicate RowsUpTo(rows: seq<seq<string>>, kind: Listing, enabled: bool, cs: seq<Container>, n: nat)
    requires Named(cs) && n <= |cs|
  {
    |rows| == n && forall k :: 0 <= k < n ==> rows[k] == Row(kind, enabled, cs[k])
  }

  /** Appending the next container's row extends the prefix by one. */
  lemma RowStep(rows: seq<seq<string>>, kind: Listing, enabled: bool, cs: seq<Container>, n: nat)
    requires Named(cs) && n < |cs|
    requires RowsUpTo(rows, kind, enabled, cs, n)
    ensures RowsUpTo(rows + [Row(kind, enabled, cs[n])], kind, enabled, cs, n + 1)
  {
    var next := rows + [Row(kind, enabled, cs[n])];
    forall k | 0 <= k < n + 1
      ensures next[k] == Row(kind, enabled, cs[k])
    {
      if k < n {
        assert next[k] == rows[k];
      }
    }
  }

  // ---------------------------------------------------------------------
  // docker stats: containers named on the command line
  // ---------------------------------------------------------------------

  /** The argument test of `stats` and `logs`: display name or ID equal, or ID prefix. */
  predicate AnswersTo(c: Container, arg: string)
    requires |c.names| > 0
  {
    DisplayName(c) == arg || c.id == arg || HasPrefix(c.id, arg)
  }

  function RequestedBy(args: seq<string>): Container -> bool {
    (c: Container) => |c.names| > 0 && exists a :: a in args && AnswersTo(c, a)
  }

  /** The inner loop of `stats`: does any argument select this container? Stops at the first that does. */
  method MatchesAnyArg(c: Container, args: seq<string>) returns (hit: bool)
    requires |c.names| > 0
    ensures hit == RequestedBy(args)(c)
  {
    var name := DisplayName(c);
    var k := 0;
    while k < |args|
      invariant 0 <= k <= |args|
      invariant forall j :: 0 <= j < k ==> !AnswersTo(c, args[j])
    {
      if name == args[k] || c.id == args[k] || HasPrefix(c.id, args[k]) {
        assert args[k] in args && AnswersTo(c, args[k]);
        return true;
      }
      k := k + 1;
    }
    return false;
  }

  /** `stats` selection: the requested containers (all when there are no arguments), then only the running ones. */
  method SelectForStats(cs: seq<Container>, args: seq<string>) returns (selected: seq<Container>)
    requires Named(cs)
    ensures selected == Filter(if |args| > 0 then Filter(cs, RequestedBy(args)) else cs, IsRunning)
  {
    var candidates := cs;
    if |args| > 0 {
      var filtered := [];
      var i := 0;
      while i < |cs|
        invariant 0 <= i <= |cs|
        invariant filtered == Filter(cs[..i], RequestedBy(args))
      {
        assert cs[..i + 1][..i] == cs[..i];
        var hit := MatchesAnyArg(cs[i], args);
        if hit {
          filtered := filtered + [cs[i]];
        }
        i := i + 1;
      }
      assert cs[..|cs|] == cs;
      candidates := filtered;
    }
    selected := KeepRunning(candidates);
  }

  /**
   * With arguments, `stats` shows exactly the running containers that some
   * argument names, and never the same entry twice.
   */
  lemma StatsSelection(cs: seq<Container>, args: seq<string>, c: Container)
    requires Named(cs) && |args| > 0
    ensures c in Filter(Filter(cs, RequestedBy(args)), IsRunning) <==>
            c in cs && IsRunning(c) && exists a :: a in args && AnswersTo(c, a)
    ensures |Filter(Filter(cs, RequestedBy(args)), IsRunning)| <= |cs|
  {
    FilterMembership(Filter(cs, RequestedBy(args)), IsRunning, c);
    FilterMembership(cs, RequestedBy(args), c);
  }

  // ---------------------------------------------------------------------
  // docker logs: one pass, first container matching in any way
  // ---------------------------------------------------------------------

  function LogsMatch(token: string): Container -> bool {
    (c: Container) => |c.names| > 0 && AnswersTo(c, token)
  }

  function LogsNotFound(token: string): string {
    "container '" + token + "' not found"
  }

  /** The container `logs` reports on: the first in list order that answers to the token. */
  function LogsLookup(cs: seq<Container>, token: string): (r: Result<Container>)
    ensures r.Ok? ==> exists i :: 0 <= i < |cs| && cs[i] == r.value && LogsMatch(token)(cs[i]) &&
                        forall j :: 0 <= j < i ==> !LogsMatch(token)(cs[j])
    ensures r.Err? <==> forall i :: 0 <= i < |cs| ==> !LogsMatch(token)(cs[i])
    ensures r.Err? ==> r.msg == LogsNotFound(token)
  {
    match FirstIndex(cs, LogsMatch(token))
    case Some(i) => Ok(cs[i])
    case None => Err(LogsNotFound(token))
  }

  method FindForLogs(cs: seq<Container>, token: string) returns (r: Result<Container>)
    requires Named(cs)
    ensures r == LogsLookup(cs, token)
  {
    var i := 0;
    while i < |cs|
      invariant 0 <= i <= |cs|
      invariant forall j :: 0 <= j < i ==> !LogsMatch(token)(cs[j])
    {
      var name := DisplayName(cs[i]);
      if name == token || cs[i].id == token || HasPrefix(cs[i].id, token) {
        assert FirstIndex(cs, LogsMatch(token)) == Some(i);
        return Ok(cs[i]);
      }
      i := i + 1;
    }
    return Err(LogsNotFound(token));
  }

  /** Whatever `logs` finds, the client's resolver also resolves. */
  lemma LogsFoundIsResolvable(cs: seq<Container>, token: string)
    requires LogsLookup(cs, token).Ok?
    ensures FindContainerID(Ok(cs), token).Ok?
  {
    var i :| 0 <= i < |cs| && LogsMatch(token)(cs[i]);
    if DisplayName(cs[i]) == token {
      assert NameMatches(cs[i], token);
    }
  }

  /**
   * The single pass lets an earlier ID-prefix match win over a later exact
   * name, which the client's tiered resolver ranks first.
   */
  lemma LogsPrecedenceDiffers()
    ensures var cs := [Container("abc123", ["/db"], "", "", "", false), Container("ff00", ["/ab"], "", "", "", false)];
            LogsLookup(cs, "ab") == Ok(cs[0]) && FindContainerID(Ok(cs), "ab") == Ok("ff00")
  {
    var cs := [Container("abc123", ["/db"], "", "", "", false), Container("ff00", ["/ab"], "", "", "", false)];
    assert LogsMatch("ab")(cs[0]) by {
      assert HasPrefix(cs[0].id, "ab");
    }
    assert NameMatches(cs[1], "ab") by {
      assert TrimPrefix(cs[1].names[0], "/") == "ab";
    }
  }

  // ---------------------------------------------------------------------
  // start-all / stop-all
  // ---------------------------------------------------------------------

  /**
   * The positions whose call failed, in increasing order. Each argument is
   * its own call to the server, so a repeated argument may fail once and
   * succeed once.
   */
  function FailedIndices(outcomes: seq<Option<string>>): (idx: seq<nat>)
    ensures forall k :: 0 <= k < |idx| ==> idx[k] < |outcomes| && outcomes[idx[k]].Some?
    ensures forall k, l :: 0 <= k < l < |idx| ==> idx[k] < idx[l]
    ensures forall i :: 0 <= i < |outcomes| && outcomes[i].Some? ==> i in idx
  {
    if outcomes == [] then []
    else
      var n := |outcomes| - 1;
      FailedIndices(outcomes[..n]) + if outcomes[n].Some? then [n] else []
  }

  /** The arguments at the failed positions, in argument order. */
  function FailedArgs(args: seq<string>, outcomes: seq<Option<string>>): (failures: seq<string>)
    requires |args| == |outcomes|
    ensures |failures| == |FailedIndices(outcomes)|
  {
    var idx := FailedIndices(outcomes);
    seq(|idx|, k requires 0 <= k < |idx| => args[idx[k]])
  }

  /** There are failures exactly when some call failed. */
  lemma SomeCallFailed(args: seq<string>, outcomes: seq<Option<string>>)
    requires |args| == |outcomes|
    ensures |FailedArgs(args, outcomes)| > 0 <==> exists i :: 0 <= i < |outcomes| && outcomes[i].Some?
  {
    var idx := FailedIndices(outcomes);
    if |idx| > 0 {
      assert outcomes[idx[0]].Some?;
    }
  }

  /** One more call extends the failures by that argument exactly when it failed. */
  lemma FailedArgsStep(args: seq<string>, outcomes: seq<Option<string>>, i: nat)
    requires |args| == |outcomes| && i < |args|
    ensures FailedArgs(args[..i + 1], outcomes[..i + 1]) ==
            FailedArgs(args[..i], outcomes[..i]) + if outcomes[i].Some? then [args[i]] else []
  {
    assert outcomes[..i + 1][..i] == outcomes[..i];
  }

  /** %v of a []string: the elements separated by spaces, in brackets. */
  function GoList(xs: seq<string>): string {
    "[" + SpaceJoin(xs) + "]"
  }

  function SpaceJoin(xs: seq<string>): string {
    if |xs| == 0 then ""
    else if |xs| == 1 then xs[0]
    else SpaceJoin(xs[..|xs| - 1]) + " " + xs[|xs| - 1]
  }

  function ActError(verb: string, failures: seq<string>): string {
    "failed to " + verb + " " + IntToString(|failures|) + " container(s): " + GoList(failures)
  }

  /**
   * start-all (verb "start") and stop-all (verb "stop"): every argument is
   * attempted, `outcomes[i]` being the error of the i-th call; the failed
   * ones are collected in argument order, and the command fails exactly
   * when there is one.
   */
  method ActOnAll(verb: string, args: seq<string>, outcomes: seq<Option<string>>)
    returns (failures: seq<string>, err: Option<string>)
    requires |outcomes| == |args|
    ensures failures == FailedArgs(args, outcomes)
    ensures err.Some? <==> exists i :: 0 <= i < |outcomes| && outcomes[i].Some?
    ensures err.Some? ==> err.value == ActError(verb, failures)
  {
    failures := [];
    var i := 0;
    while i < |args|
      invariant 0 <= i <= |args|
      invariant failures == FailedArgs(args[..i], outcomes[..i])
    {
      FailedArgsStep(args, outcomes, i);
      if outcomes[i].Some? {
        failures := failures + [args[i]];
      }
      i := i + 1;
    }
    assert args[..|args|] == args && outcomes[..|outcomes|] == outcomes;
    SomeCallFailed(args, outcomes);
    if |failures| > 0 {
      return failures, Some(ActError(verb, failures));
    }
    err := None;
  }

  // ---------------------------------------------------------------------
  // Table or encoder: how ls, ps and stats choose
  // ---------------------------------------------------------------------

  /**
   * As written, the listing commands choose the table path from the raw
   * --output flag (empty or exactly "table"), although the formatter was
   * built from the normalised format, the stored default included.
   */
  predicate RawFlagSaysTable(flag: string) {
    flag == "" || flag == "table"
  }

  /** What a listing writes as the source chooses: table path by raw flag, then the formatter's own behaviour. */
  function ListingOutputAsWritten(flag: string, format: F.Format, headers: seq<string>, rows: seq<seq<string>>,
                                  items: seq<Container>): (out: seq<F.Emitted>)
    ensures RawFlagSaysTable(flag) && format != F.TableFormat ==>
              out == [F.Encoded(format, F.Records(Table.Records(headers, rows)))]
    ensures !RawFlagSaysTable(flag) && format == F.TableFormat ==> out == []
  {
    if RawFlagSaysTable(flag) then
      if format == F.TableFormat then F.Lines(Table.Render(headers, rows))
      else [F.Encoded(format, F.Records(Table.Records(headers, rows)))]
    else if format == F.TableFormat then []
    else [F.Encoded(format, F.Containers(items))]
  }

  /** `-o xml` (or `-o TABLE`) selects a table formatter but the encoder path, which refuses: nothing is printed. */
  lemma UnknownFlagPrintsNothing(headers: seq<string>, rows: seq<seq<string>>, items: seq<Container>)
    ensures F.ParseFormat("xml") == F.TableFormat && F.ParseFormat("TABLE") == F.TableFormat
    ensures ListingOutputAsWritten("xml", F.ParseFormat("xml"), headers, rows, items) == []
    ensures ListingOutputAsWritten("TABLE", F.ParseFormat("TABLE"), headers, rows, items) == []
  {
    assert ToLower("xml") == "xml";
    assert ToLower("TABLE") == "table";
  }

  /** An empty flag with "json" stored in the configuration encodes the coloured table cells instead of the containers. */
  lemma StoredFormatEncodesCells(headers: seq<string>, rows: seq<seq<string>>, items: seq<Container>)
    ensures ListingOutputAsWritten("", F.JSON, headers, rows, items) ==
              [F.Encoded(F.JSON, F.Records(Table.Records(headers, rows)))]
  {
  }

  /** The choice made by the formatter's own format: the table in table mode, the containers otherwise. */
  function ListingOutput(format: F.Format, headers: seq<string>, rows: seq<seq<string>>,
                         items: seq<Container>): (out: seq<F.Emitted>)
    ensures format == F.TableFormat ==> |out| == 2 + |rows|
    ensures format != F.TableFormat ==> out == [F.Encoded(format, F.Containers(items))]
  {
    if format == F.TableFormat then F.Lines(Table.Render(headers, rows))
    else [F.Encoded(format, F.Containers(items))]
  }

  /** Deciding by the formatter's format always prints something, and agrees with the source on the three canonical flags. */
  lemma ListingOutputAgrees(flag: string, headers: seq<string>, rows: seq<seq<string>>, items: seq<Container>)
    requires flag == "table" || flag == "json" || flag == "yaml"
    ensures |ListingOutput(F.ParseFormat(flag), headers, rows, items)| >= 1
    ensures ListingOutput(F.ParseFormat(flag), headers, rows, items) ==
            ListingOutputAsWritten(flag, F.ParseFormat(flag), headers, rows, items)
  {
    assert ToLower(flag) == flag;
  }

  /** Writes a listing as the formatter's format says. */
  method ShowListing(f: F.Formatter, headers: seq<string>, rows: seq<seq<string>>, items: seq<Container>)
    modifies f
    ensures f.output == old(f.output) + ListingOutput(f.format, headers, rows, items)
  {
    if f.format == F.TableFormat {
      f.PrintTable(headers, rows);
    } else {
      var ignored := f.Print(F.Containers(items));
    }
  }

  const NoContainers := "No containers found."
  const NoRunningContainers := "No running containers found."
  const StatsNote := "Note: Detailed per-container CPU/Memory stats require additional API support."

  /** Filtering never drops a container's names, so the kept ones still have a display name. */
  function Kept(cs: seq<Container>, p: Container -> bool): (kept: seq<Container>)
    ensures kept == Filter(cs, p)
    ensures Named(cs) ==> Named(kept)
  {
    var kept := Filter(cs, p);
    assert Named(cs) ==> Named(kept) by {
      if Named(cs) {
        forall i | 0 <= i < |kept|
          ensures |kept[i].names| > 0
        {
          assert kept[i] in cs;
        }
      }
    }
    kept
  }

  function StateFiltered(cs: seq<Container>, state: string): (kept: seq<Container>)
    ensures Named(cs) ==> Named(kept)
  {
    if state == "" then cs else Kept(cs, StateIs(state))
  }

  function StatsSelected(cs: seq<Container>, args: seq<string>): (selected: seq<Container>)
    ensures Named(cs) ==> Named(selected)
  {
    Kept(if |args| > 0 then Kept(cs, RequestedBy(args)) else cs, IsRunning)
  }

  function RowsOf(kind: Listing, enabled: bool, cs: seq<Container>): (rows: seq<seq<string>>)
    requires Named(cs)
    ensures |rows| == |cs|
  {
    seq(|cs|, i requires 0 <= i < |cs| => Row(kind, enabled, cs[i]))
  }

  /**
   * One refresh of `docker ls`: fetch, filter by state, then either the
   * empty notice or the listing.
   */
  method ListContainers(f: F.Formatter, enabled: bool, listing: Result<seq<Container>>, state: string)
    returns (err: Option<string>)
    requires listing.Ok? ==> Named(listing.value)
    modifies f
    ensures listing.Err? ==> err == Some("failed to get containers: " + listing.msg) && f.output == old(f.output)
    ensures listing.Ok? ==> err == None
    ensures listing.Ok? && StateFiltered(listing.value, state) == [] ==>
              f.output == old(f.output) + [F.Text(NoContainers)]
    ensures listing.Ok? && StateFiltered(listing.value, state) != [] ==>
              var kept := StateFiltered(listing.value, state);
              f.output == old(f.output) + ListingOutput(f.format, Headers(Ls), RowsOf(Ls, enabled, kept), kept)
  {
    if listing.Err? {
      return Some("failed to get containers: " + listing.msg);
    }
    var kept := FilterByState(listing.value, state);
    assert kept == StateFiltered(listing.value, state);
    if kept == [] {
      f.output := f.output + [F.Text(NoContainers)];
      return None;
    }
    var rows := BuildRows(Ls, enabled, kept);
    assert rows == RowsOf(Ls, enabled, kept);
    ShowListing(f, Headers(Ls), rows, kept);
    err := None;
  }

  /** `docker ps`: fetch, keep the running containers, then the empty notice or the listing. */
  method ListRunning(f: F.Formatter, enabled: bool, listing: Result<seq<Container>>)
    returns (err: Option<string>)
    requires listing.Ok? ==> Named(listing.value)
    modifies f
    ensures listing.Err? ==> err == Some("failed to get containers: " + listing.msg) && f.output == old(f.output)
    ensures listing.Ok? ==> err == None
    ensures listing.Ok? && Kept(listing.value, IsRunning) == [] ==>
              f.output == old(f.output) + [F.Text(NoRunningContainers)]
    ensures listing.Ok? && Kept(listing.value, IsRunning) != [] ==>
              var running := Kept(listing.value, IsRunning);
              f.output == old(f.output) + ListingOutput(f.format, Headers(Ps), RowsOf(Ps, enabled, running), running)
  {
    if listing.Err? {
      return Some("failed to get containers: " + listing.msg);
    }
    var running := KeepRunning(listing.value);
    assert running == Kept(listing.value, IsRunning);
    if running == [] {
      f.output := f.output + [F.Text(NoRunningContainers)];
      return None;
    }
    var rows := BuildRows(Ps, enabled, running);
    assert rows == RowsOf(Ps, enabled, running);
    ShowListing(f, Headers(Ps), rows, running);
    err := None;
  }

  /** One refresh of `docker stats`: the selection, then the empty notice or the listing and its note. */
  method ShowStats(f: F.Formatter, enabled: bool, listing: Result<seq<Container>>, args: seq<string>)
    returns (err: Option<string>)
    requires listing.Ok? ==> Named(listing.value)
    modifies f
    ensures listing.Err? ==> err == Some("failed to get containers: " + listing.msg) && f.output == old(f.output)
    ensures listing.Ok? ==> err == None
    ensures listing.Ok? && StatsSelected(listing.value, args) == [] ==>
              f.output == old(f.output) + [F.Text(NoRunningContainers)]
    ensures listing.Ok? && StatsSelected(listing.value, args) != [] ==>
              var selected := StatsSelected(listing.value, args);
              f.output == old(f.output) +
                ListingOutput(f.format, Headers(Stats), RowsOf(Stats, enabled, selected), selected) +
                (if f.format == F.TableFormat then [F.Text(""), F.Text(StatsNote)] else [])
  {
    if listing.Err? {
      return Some("failed to get containers: " + listing.msg);
    }
    var selected := SelectForStats(listing.value, args);
    assert selected == StatsSelected(listing.value, args);
    if selected == [] {
      f.output := f.output + [F.Text(NoRunningContainers)];
      return None;
    }
    var rows := BuildRows(Stats, enabled, selected);
    assert rows == RowsOf(Stats, enabled, selected);
    ShowListing(f, Headers(Stats), rows, selected);
    if f.format == F.TableFormat {
      f.output := f.output + [F.Text(""), F.Text(StatsNote)];
    }
    err := None;
  }
}
