/**
 * The `health` command (cmd/health.go): five fetches, each either a value
 * or an error, folded into two flags, `hasErrors` and `hasWarnings`, and a
 * final verdict in which errors take precedence over warnings. The command
 * itself always returns nil.
 *
 * CPU and memory percentages are compared as reals; the text printed for
 * them is not modelled.
 */
module HealthCmd {
  import opened Common
  import opened UnraidClient
  import Color
  import DockerCmd

  datatype Metrics = Metrics(cpuPercent: real, memoryPercent: real)

  // ---------------------------------------------------------------------
  // Disks
  // ---------------------------------------------------------------------

  predicate DiskOK(d: ArrayDisk) {
    ToUpper(d.status) == "DISK_OK"
  }

  predicate Hot(d: ArrayDisk) {
    d.temperature > 0 && d.temperature >= 60
  }

  /** A disk warns by a non-empty status other than DISK_OK, or by its temperature. */
  predicate DiskWarns(d: ArrayDisk) {
    (!DiskOK(d) && ToUpper(d.status) != "") || Hot(d)
  }

  /** The disk loop: counts every disk and the healthy ones, and notes any warning. */
  method TallyDisks(disks: seq<ArrayDisk>) returns (healthy: nat, total: nat, warn: bool)
    ensures total == |disks|
    ensures healthy == Count(disks, DiskOK)
    ensures healthy <= total
    ensures warn <==> exists i :: 0 <= i < |disks| && DiskWarns(disks[i])
  {
    healthy, total, warn := 0, 0, false;
    var i := 0;
    while i < |disks|
      invariant 0 <= i <= |disks|
      invariant total == i
      invariant healthy == Count(disks[..i], DiskOK)
      invariant warn <==> exists j :: 0 <= j < i && DiskWarns(disks[j])
    {
      assert disks[..i + 1][..i] == disks[..i];
      var d := disks[i];
      total := total + 1;
      var status := ToUpper(d.status);
      if status == "DISK_OK" {
        healthy := healthy + 1;
      } else if status != "" {
        warn := true;
      }
      if d.temperature > 0 && d.temperature >= 60 {
        warn := true;
      }
      i := i + 1;
    }
    assert disks[..|disks|] == disks;
  }

  /** Fewer healthy than total means some disk is not DISK_OK, and conversely. */
  lemma {:induction false} CountBelowTotal(disks: seq<ArrayDisk>)
    ensures Count(disks, DiskOK) < |disks| <==> exists i :: 0 <= i < |disks| && !DiskOK(disks[i])
  {
    if disks != [] {
      var front := disks[..|disks| - 1];
      CountBelowTotal(front);
      if exists i :: 0 <= i < |front| && !DiskOK(front[i]) {
        var i :| 0 <= i < |front| && !DiskOK(front[i]);
        assert disks[i] == front[i];
      }
      if exists i :: 0 <= i < |disks| && !DiskOK(disks[i]) {
        var i :| 0 <= i < |disks| && !DiskOK(disks[i]);
        if i < |front| {
          assert front[i] == disks[i];
        }
      }
    }
  }

  /** What the array section warns about, as the source checks it. */
  predicate ArrayWarns(a: ArrayInfo) {
    var disks := AllDisks(a);
    ToUpper(a.state) != "STARTED" ||
    (exists i :: 0 <= i < |disks| && DiskWarns(disks[i])) ||
    Count(disks, DiskOK) < |disks|
  }

  /**
   * The healthy-count check subsumes the status check: the array section
   * warns exactly when the array is not STARTED, some disk is not DISK_OK
   * (an empty status included), or some disk is at 60 degrees or more.
   */
  lemma ArrayWarnsSimplified(a: ArrayInfo)
    ensures var disks := AllDisks(a);
            ArrayWarns(a) <==>
              ToUpper(a.state) != "STARTED" ||
              exists i :: 0 <= i < |disks| && (!DiskOK(disks[i]) || Hot(disks[i]))
  {
    CountBelowTotal(AllDisks(a));
  }

  // ---------------------------------------------------------------------
  // Containers
  // ---------------------------------------------------------------------

  function Stopped(c: Container): bool {
    !DockerCmd.IsRunning(c)
  }

  /** The container loop: every container counts as running or as stopped. */
  method TallyContainers(cs: seq<Container>) returns (running: nat, stopped: nat)
    ensures running == Count(cs, DockerCmd.IsRunning)
    ensures stopped == Count(cs, Stopped)
    ensures running + stopped == |cs|
  {
    running, stopped := 0, 0;
    var i := 0;
    while i < |cs|
      invariant 0 <= i <= |cs|
      invariant running == Count(cs[..i], DockerCmd.IsRunning)
      invariant stopped == Count(cs[..i], Stopped)
      invariant running + stopped == i
    {
      assert cs[..i + 1][..i] == cs[..i];
      if ToLower(cs[i].state) == "running" {
        running := running + 1;
      } else {
        stopped := stopped + 1;
      }
      i := i + 1;
    }
    assert cs[..|cs|] == cs;
  }

  // ---------------------------------------------------------------------
  // The whole check
  // ---------------------------------------------------------------------

  /** Which sections fail to fetch or report errors. */
  predicate ExpectErrors(arrayInfo: Result<ArrayInfo>, parity: Result<ParityCheck>, containers: Result<seq<Container>>,
                         metrics: Result<Metrics>, notes: Result<NotificationOverview>) {
    arrayInfo.Err? || parity.Err? || containers.Err? || metrics.Err? || notes.Err? ||
    (parity.Ok? && parity.value.errors > 0) ||
    (notes.Ok? && notes.value.unread.alert > 0)
  }

  /** Which sections warn. */
  predicate ExpectWarnings(arrayInfo: Result<ArrayInfo>, metrics: Result<Metrics>, notes: Result<NotificationOverview>) {
    (arrayInfo.Ok? && ArrayWarns(arrayInfo.value)) ||
    (metrics.Ok? && (metrics.value.cpuPercent >= 90.0 || metrics.value.memoryPercent >= 90.0)) ||
    (notes.Ok? && notes.value.unread.warning > 0)
  }

  /** The flag updates of the health command, section by section. */
  method Assess(arrayInfo: Result<ArrayInfo>, parity: Result<ParityCheck>, containers: Result<seq<Container>>,
                metrics: Result<Metrics>, notes: Result<NotificationOverview>)
    returns (hasErrors: bool, hasWarnings: bool)
    ensures hasErrors == ExpectErrors(arrayInfo, parity, containers, metrics, notes)
    ensures hasWarnings == ExpectWarnings(arrayInfo, metrics, notes)
  {
    hasErrors, hasWarnings := false, false;

    if arrayInfo.Err? {
      hasErrors := true;
    } else {
      if ToUpper(arrayInfo.value.state) != "STARTED" {
        hasWarnings := true;
      }
      var healthy, total, warn := TallyDisks(AllDisks(arrayInfo.value));
      if warn {
        hasWarnings := true;
      }
      if healthy != total {
        hasWarnings := true;
      }
    }

    if parity.Err? {
      hasErrors := true;
    } else if parity.value.errors > 0 {
      hasErrors := true;
    }

    if containers.Err? {
      hasErrors := true;
    } else {
      var running, stopped := TallyContainers(containers.value);
    }

    if metrics.Err? {
      hasErrors := true;
    } else {
      if metrics.value.cpuPercent >= 90.0 {
        hasWarnings := true;
      }
      if metrics.value.memoryPercent >= 90.0 {
        hasWarnings := true;
      }
    }

    if notes.Err? {
      hasErrors := true;
    } else {
      if notes.value.unread.alert > 0 {
        hasErrors := true;
      }
      if notes.value.unread.warning > 0 {
        hasWarnings := true;
      }
    }
  }

  datatype Verdict = Errors | Warnings | Healthy

  /** Errors take precedence over warnings; healthy only when neither flag is set. */
  function VerdictOf(hasErrors: bool, hasWarnings: bool): (v: Verdict)
    ensures v == Healthy <==> !hasErrors && !hasWarnings
    ensures v == Errors <==> hasErrors
    ensures v == Warnings <==> !hasErrors && hasWarnings
  {
    if hasErrors then Errors else if hasWarnings then Warnings else Healthy
  }

  function SummaryText(v: Verdict): string {
    match v
    case Errors => "System has errors that need attention"
    case Warnings => "System has warnings"
    case Healthy => "All systems healthy"
  }

  /** The closing line: the verdict's text behind its symbol (cross, warning sign or check mark). */
  function SummaryLine(enabled: bool, v: Verdict): (line: string)
    ensures HasSuffix(line, " " + SummaryText(v))
    ensures !enabled && v == Healthy ==> line == Color.CheckMark + " " + SummaryText(v)
    ensures !enabled && v == Warnings ==> line == Color.WarningSign + " " + SummaryText(v)
    ensures !enabled && v == Errors ==> line == Color.CrossMark + " " + SummaryText(v)
  {
    match v
    case Errors => Color.Error(enabled, SummaryText(v))
    case Warnings => Color.Warning(enabled, SummaryText(v))
    case Healthy => Color.Success(enabled, SummaryText(v))
  }

  /**
   * A single failed fetch rules out "All systems healthy", whatever the
   * other sections report.
   */
  lemma AnyFetchErrorIsNotHealthy(arrayInfo: Result<ArrayInfo>, parity: Result<ParityCheck>, containers: Result<seq<Container>>,
                                  metrics: Result<Metrics>, notes: Result<NotificationOverview>)
    requires arrayInfo.Err? || parity.Err? || containers.Err? || metrics.Err? || notes.Err?
    ensures VerdictOf(ExpectErrors(arrayInfo, parity, containers, metrics, notes), ExpectWarnings(arrayInfo, metrics, notes)) == Errors
  {
  }
}
