/**
 * The API gateway client of the CLI (internal/client/unraid.go), reduced to
 * the logic that runs on this side of the GraphQL transport: endpoint
 * normalisation, the ordered disk list of an array, the three-tier
 * resolution of a user token to a container or VM identifier, and the
 * construction of the variable maps sent with two queries.
 *
 * Fetching a listing is a network call; it enters the model as a value of
 * type Result<seq<...>> that is either the listing or the transport error.
 */
module UnraidClient {
  import opened Common

  // ---------------------------------------------------------------------
  // Records returned by the API
  // ---------------------------------------------------------------------

  datatype Container = Container(
    id: string, names: seq<string>, image: string,
    state: string, status: string, autostart: bool)

  datatype VM = VM(id: string, name: string, state: string)

  datatype ArrayDisk = ArrayDisk(
    id: string, name: string, device: string, status: string,
    size: int, temperature: int, diskType: string, fsType: string)

  /** Array state; a missing (nil) boot disk is None. */
  datatype ArrayInfo = ArrayInfo(
    state: string, boot: Option<ArrayDisk>,
    parities: seq<ArrayDisk>, disks: seq<ArrayDisk>, caches: seq<ArrayDisk>)

  datatype Share = Share(
    id: string, name: string, free: Int64, used: Int64, size: Int64,
    includeDisks: seq<string>, excludeDisks: seq<string>, cache: bool, comment: string)

  datatype ParityCheck = ParityCheck(
    date: string, duration: int, speed: string, status: string,
    errors: int, progress: int, correcting: bool, paused: bool, running: bool)

  datatype NotificationCounts = NotificationCounts(info: int, warning: int, alert: int, total: int)

  datatype NotificationOverview = NotificationOverview(unread: NotificationCounts, archive: NotificationCounts)

  datatype LogFileContent = LogFileContent(path: string, content: string, totalLines: int, startLine: int)

  /** The client keeps the endpoint and the key it sends in the x-api-key header. */
  datatype Client = Client(url: string, apiKey: string)

  const GraphQLSuffix: string := "/graphql"

  // ---------------------------------------------------------------------
  // New: endpoint normalisation
  // ---------------------------------------------------------------------

  /**
   * New slices the last eight bytes before looking at the length, so a URL
   * shorter than "/graphql" makes it panic: that is the precondition.
   */
  function New(serverURL: string, apiKey: string): (c: Client)
    requires |serverURL| >= |GraphQLSuffix|
    ensures HasSuffix(c.url, GraphQLSuffix)
    ensures HasSuffix(serverURL, GraphQLSuffix) ==> c.url == serverURL
    ensures !HasSuffix(serverURL, GraphQLSuffix) ==> c.url == serverURL + GraphQLSuffix
    ensures c.apiKey == apiKey
  {
    if serverURL[|serverURL| - 8..] != GraphQLSuffix then Client(serverURL + GraphQLSuffix, apiKey)
    else Client(serverURL, apiKey)
  }

  /** Normalising an already normalised endpoint changes nothing. */
  lemma NewIdempotent(serverURL: string, apiKey: string)
    requires |serverURL| >= |GraphQLSuffix|
    ensures New(New(serverURL, apiKey).url, apiKey) == New(serverURL, apiKey)
  {
  }

  // ---------------------------------------------------------------------
  // ArrayInfo.AllDisks
  // ---------------------------------------------------------------------

  function BootCount(a: ArrayInfo): nat {
    if a.boot.Some? then 1 else 0
  }

  /** Boot disk (when present), then parity, data and cache disks, in that order. */
  function AllDisks(a: ArrayInfo): (r: seq<ArrayDisk>)
    ensures |r| == BootCount(a) + |a.parities| + |a.disks| + |a.caches|
    ensures a.boot.Some? ==> r[0] == a.boot.value
    ensures forall i :: 0 <= i < |a.parities| ==> r[BootCount(a) + i] == a.parities[i]
    ensures forall i :: 0 <= i < |a.disks| ==> r[BootCount(a) + |a.parities| + i] == a.disks[i]
    ensures forall i :: 0 <= i < |a.caches| ==>
              r[BootCount(a) + |a.parities| + |a.disks| + i] == a.caches[i]
  {
    var boot := if a.boot.Some? then [a.boot.value] else [];
    boot + a.parities + a.disks + a.caches
  }

  /** Every disk of the array appears in the combined list, and nothing else does. */
  lemma AllDisksMembership(a: ArrayInfo, d: ArrayDisk)
    ensures d in AllDisks(a) <==>
              (a.boot == Some(d)) || d in a.parities || d in a.disks || d in a.caches
  {
  }

  // ---------------------------------------------------------------------
  // FindContainerID and FindVMID: three tiers, first hit wins
  // ---------------------------------------------------------------------

  /** A container answers to a name when one of its names, minus one leading "/", equals it. */
  predicate NameMatches(c: Container, token: string) {
    exists k :: 0 <= k < |c.names| && TrimPrefix(c.names[k], "/") == token
  }

  predicate IdHit(cs: seq<Container>, token: string) {
    exists j :: 0 <= j < |cs| && cs[j].id == token
  }

  predicate NameHit(cs: seq<Container>, token: string) {
    exists j :: 0 <= j < |cs| && NameMatches(cs[j], token)
  }

  predicate PrefixHit(cs: seq<Container>, token: string) {
    exists j :: 0 <= j < |cs| && HasPrefix(cs[j].id, token)
  }

  function FindContainerID(listing: Result<seq<Container>>, token: string): (r: Result<string>)
    // a listing error is returned before any matching
    ensures listing.Err? ==> r == Err(listing.msg)
    // the answer is always the identifier of a listed container
    ensures listing.Ok? && r.Ok? ==> exists i :: 0 <= i < |listing.value| && listing.value[i].id == r.value
    // not found exactly when no tier matches
    ensures listing.Ok? ==>
              (r.Err? <==> !IdHit(listing.value, token) && !NameHit(listing.value, token) && !PrefixHit(listing.value, token))
    ensures listing.Ok? && r.Err? ==> r.msg == "container not found: " + token
    // tier 1: an exact identifier wins over everything else
    ensures listing.Ok? && IdHit(listing.value, token) ==> r == Ok(token)
    // tier 2: the first container, in list order, that answers to the name
    ensures forall i ::
              (listing.Ok? && 0 <= i < |listing.value| && !IdHit(listing.value, token) &&
               NameMatches(listing.value[i], token) &&
               (forall j :: 0 <= j < i ==> !NameMatches(listing.value[j], token)))
              ==> r == Ok(listing.value[i].id)
    // tier 3: the first container whose identifier starts with the token
    ensures forall i ::
              (listing.Ok? && 0 <= i < |listing.value| && !IdHit(listing.value, token) &&
               !NameHit(listing.value, token) && HasPrefix(listing.value[i].id, token) &&
               (forall j :: 0 <= j < i ==> !HasPrefix(listing.value[j].id, token)))
              ==> r == Ok(listing.value[i].id)
  {
    match listing
    case Err(e) => Err(e)
    case Ok(cs) =>
      match FirstIndex(cs, (c: Container) => c.id == token)
      case Some(i) => Ok(cs[i].id)
      case None =>
        match FirstIndex(cs, (c: Container) => NameMatches(c, token))
        case Some(i) => Ok(cs[i].id)
        case None =>
          match FirstIndex(cs, (c: Container) => HasPrefix(c.id, token))
          case Some(i) => Ok(cs[i].id)
          case None => Err("container not found: " + token)
  }

  /**
   * The empty token is a prefix of every identifier, so against a non-empty
   * listing it never fails, and when the first two tiers miss it picks the
   * first container.
   */
  lemma EmptyTokenPicksFirst(cs: seq<Container>)
    requires |cs| > 0
    ensures FindContainerID(Ok(cs), "").Ok?
    ensures !IdHit(cs, "") && !NameHit(cs, "") ==> FindContainerID(Ok(cs), "") == Ok(cs[0].id)
  {
    assert HasPrefix(cs[0].id, "");
  }

  /** The worked example of the design: both exact tiers miss, the first prefix hit wins. */
  lemma PrefixTierExample()
    ensures FindContainerID(Ok([Container("abc123", ["/foo"], "", "", "", false),
                                Container("abc999", ["/abcdef"], "", "", "", false)]), "abc")
            == Ok("abc123")
  {
    var cs := [Container("abc123", ["/foo"], "", "", "", false),
               Container("abc999", ["/abcdef"], "", "", "", false)];
    assert TrimPrefix("/foo", "/") == "foo";
    assert TrimPrefix("/abcdef", "/") == "abcdef";
    assert !NameMatches(cs[0], "abc");
    assert !NameMatches(cs[1], "abc");
    assert HasPrefix(cs[0].id, "abc");
  }

  predicate VmIdHit(vms: seq<VM>, token: string) {
    exists j :: 0 <= j < |vms| && vms[j].id == token
  }

  predicate VmNameHit(vms: seq<VM>, token: string) {
    exists j :: 0 <= j < |vms| && vms[j].name == token
  }

  predicate VmPrefixHit(vms: seq<VM>, token: string) {
    exists j :: 0 <= j < |vms| && HasPrefix(vms[j].id, token)
  }

  /** The same precedence as FindContainerID, but a VM name is compared verbatim. */
  function FindVMID(listing: Result<seq<VM>>, token: string): (r: Result<string>)
    ensures listing.Err? ==> r == Err(listing.msg)
    ensures listing.Ok? && r.Ok? ==> exists i :: 0 <= i < |listing.value| && listing.value[i].id == r.value
    ensures listing.Ok? ==>
              (r.Err? <==> !VmIdHit(listing.value, token) && !VmNameHit(listing.value, token) && !VmPrefixHit(listing.value, token))
    ensures listing.Ok? && r.Err? ==> r.msg == "VM not found: " + token
    ensures listing.Ok? && VmIdHit(listing.value, token) ==> r == Ok(token)
    ensures forall i ::
              (listing.Ok? && 0 <= i < |listing.value| && !VmIdHit(listing.value, token) &&
               listing.value[i].name == token &&
               (forall j :: 0 <= j < i ==> listing.value[j].name != token))
              ==> r == Ok(listing.value[i].id)
    ensures forall i ::
              (listing.Ok? && 0 <= i < |listing.value| && !VmIdHit(listing.value, token) &&
               !VmNameHit(listing.value, token) && HasPrefix(listing.value[i].id, token) &&
               (forall j :: 0 <= j < i ==> !HasPrefix(listing.value[j].id, token)))
              ==> r == Ok(listing.value[i].id)
  {
    match listing
    case Err(e) => Err(e)
    case Ok(vms) =>
      match FirstIndex(vms, (v: VM) => v.id == token)
      case Some(i) => Ok(vms[i].id)
      case None =>
        match FirstIndex(vms, (v: VM) => v.name == token)
        case Some(i) => Ok(vms[i].id)
        case None =>
          match FirstIndex(vms, (v: VM) => HasPrefix(v.id, token))
          case Some(i) => Ok(vms[i].id)
          case None => Err("VM not found: " + token)
  }

  /** Unlike container names, a leading "/" in a VM name is not trimmed. */
  lemma VmNameNotTrimmed()
    ensures FindVMID(Ok([VM("1", "/web", "")]), "web").Err?
    ensures FindContainerID(Ok([Container("1", ["/web"], "", "", "", false)]), "web") == Ok("1")
  {
    var cs := [Container("1", ["/web"], "", "", "", false)];
    assert TrimPrefix(cs[0].names[0], "/") == "web";
    assert NameMatches(cs[0], "web");
    assert !HasPrefix("1", "web");
  }

  // ---------------------------------------------------------------------
  // Query variables of GetNotifications and GetLogFile
  // ---------------------------------------------------------------------

  datatype VarValue = Str(s: string) | Int(n: int)

  /** "type", "offset" and "limit" always; "importance" only when it is non-empty. */
  method NotificationVariables(notifType: string, importance: string, offset: int, limit: int)
    returns (vars: map<string, VarValue>)
    ensures vars.Keys == {"type", "offset", "limit"} + (if importance != "" then {"importance"} else {})
    ensures vars["type"] == Str(notifType) && vars["offset"] == Int(offset) && vars["limit"] == Int(limit)
    ensures importance != "" ==> vars["importance"] == Str(importance)
  {
    vars := map["type" := Str(notifType), "offset" := Int(offset), "limit" := Int(limit)];
    if importance != "" {
      vars := vars["importance" := Str(importance)];
    }
  }

  /** "path" always; "lines" and "startLine" only when positive. */
  method LogFileVariables(path: string, lines: int, startLine: int) returns (vars: map<string, VarValue>)
    ensures vars.Keys == {"path"} + (if lines > 0 then {"lines"} else {}) + (if startLine > 0 then {"startLine"} else {})
    ensures vars["path"] == Str(path)
    ensures lines > 0 ==> vars["lines"] == Int(lines)
    ensures startLine > 0 ==> vars["startLine"] == Int(startLine)
  {
    vars := map["path" := Str(path)];
    if lines > 0 {
      vars := vars["lines" := Int(lines)];
    }
    if startLine > 0 {
      vars := vars["startLine" := Int(startLine)];
    }
  }
}
