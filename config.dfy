/**
 * The server-profile table of internal/config/config.go: a map from
 * profile name to URL and API key, a default profile and a stored output
 * format; lookup, insertion and removal update it in place, and loading
 * fills in defaults.
 *
 * A Go nil map behaves like an empty one for every read, so the model
 * keeps a plain map and SetServer's `make` has no visible effect. The file
 * system is replaced by the outcome of locating, reading and parsing the
 * file (LoadInput).
 */
module Config {
  import opened Common

  datatype ServerConfig = ServerConfig(url: string, apiKey: string)

  /** The three fields of the configuration, as values. */
  datatype Settings = Settings(defaultServer: string, outputFormat: string, servers: map<string, ServerConfig>)

  /** One profile as `config ls` hands it to the encoder. */
  datatype ServerInfo = ServerInfo(name: string, url: string, isDefault: bool)

  const NoServerMessage := "no server specified and no default server configured"

  function NotConfiguredMessage(name: string): string {
    "server '" + name + "' not found in configuration"
  }

  function NotFoundMessage(name: string): string {
    "server '" + name + "' not found"
  }

  class Config {
    var defaultServer: string
    var outputFormat: string
    var servers: map<string, ServerConfig>

    /** The default profile, when there is one, is a configured profile. */
    predicate Valid()
      reads this
    {
      defaultServer == "" || defaultServer in servers
    }

    function Snapshot(): Settings
      reads this
    {
      Settings(defaultServer, outputFormat, servers)
    }

    constructor (s: Settings)
      ensures Snapshot() == s
    {
      defaultServer, outputFormat, servers := s.defaultServer, s.outputFormat, s.servers;
    }

    /** GetServer, on the current fields. */
    function GetServer(name: string): (r: Result<ServerConfig>)
      reads this
      ensures r == ResolveServer(Snapshot(), name)
    {
      ResolveServer(Snapshot(), name)
    }

    /** SetServer: insert or overwrite one profile; the first profile becomes the default. */
    method SetServer(name: string, url: string, apiKey: string)
      modifies this
      ensures servers == old(servers)[name := ServerConfig(url, apiKey)]
      ensures defaultServer == if old(defaultServer) == "" then name else old(defaultServer)
      ensures outputFormat == old(outputFormat)
      ensures old(Valid()) ==> Valid()
      ensures name != "" ==> GetServer(name) == Ok(ServerConfig(url, apiKey))
    {
      servers := servers[name := ServerConfig(url, apiKey)];
      if defaultServer == "" {
        defaultServer := name;
      }
    }

    /**
     * RemoveServer: delete one profile; when it was the default, some
     * remaining profile (Go's map order decides which) becomes the default,
     * or none when the table is empty.
     */
    method RemoveServer(name: string) returns (err: Option<string>)
      modifies this
      ensures outputFormat == old(outputFormat)
      ensures name !in old(servers) ==>
                err == Some(NotFoundMessage(name)) &&
                servers == old(servers) && defaultServer == old(defaultServer)
      ensures name in old(servers) ==> err == None && servers == old(servers) - {name}
      ensures name in old(servers) && old(defaultServer) == name ==>
                (servers == map[] ==> defaultServer == "") && (servers != map[] ==> defaultServer in servers)
      ensures name in old(servers) && old(defaultServer) != name ==> defaultServer == old(defaultServer)
      ensures old(Valid()) ==> Valid()
    {
      if name !in servers {
        return Some(NotFoundMessage(name));
      }
      servers := servers - {name};
      if defaultServer == name {
        defaultServer := "";
        if servers.Keys != {} {
          var serverName :| serverName in servers.Keys;
          defaultServer := serverName;
        }
      }
      err := None;
    }
  }

  /**
   * GetServer: an empty name means the default profile; no name at all,
   * or a name without a profile, is an error.
   */
  function ResolveServer(s: Settings, name: string): (r: Result<ServerConfig>)
    ensures var resolved := if name == "" then s.defaultServer else name;
            && (r.Ok? <==> resolved != "" && resolved in s.servers)
            && (r.Ok? ==> r.value == s.servers[resolved])
            && (resolved == "" ==> r == Err(NoServerMessage))
            && (resolved != "" && resolved !in s.servers ==> r == Err(NotConfiguredMessage(resolved)))
  {
    var resolved := if name == "" then s.defaultServer else name;
    if resolved == "" then Err(NoServerMessage)
    else if resolved !in s.servers then Err(NotConfiguredMessage(resolved))
    else Ok(s.servers[resolved])
  }

  /** A valid configuration with a default resolves the empty name to the default profile. */
  lemma DefaultResolves(s: Settings)
    requires s.defaultServer == "" || s.defaultServer in s.servers
    requires s.defaultServer != ""
    ensures ResolveServer(s, "") == Ok(s.servers[s.defaultServer])
    ensures ResolveServer(s, "") == ResolveServer(s, s.defaultServer)
  {
  }

  /** Without a default, only an explicit name can resolve. */
  lemma NoDefaultNeedsName(s: Settings, name: string)
    requires s.defaultServer == ""
    ensures ResolveServer(s, name).Ok? ==> name != "" && name in s.servers
    ensures name == "" ==> ResolveServer(s, name) == Err(NoServerMessage)
  {
  }

  // ---------------------------------------------------------------------
  // Load
  // ---------------------------------------------------------------------

  /** The file's content as parsed; `servers` is None when the key was absent (a nil map). */
  datatype Stored = Stored(defaultServer: string, outputFormat: string, servers: Option<map<string, ServerConfig>>)

  /** How locating, reading and parsing the configuration file went. */
  datatype LoadInput =
    | HomeDirError(msg: string)
    | Missing
    | ReadError(msg: string)
    | ParseError(msg: string)
    | Parsed(stored: Stored)

  /** Load's defaults: an empty output format becomes "table", a missing table an empty one. */
  function Normalize(stored: Stored): (s: Settings)
    ensures s.defaultServer == stored.defaultServer
    ensures s.outputFormat != ""
    ensures stored.outputFormat != "" ==> s.outputFormat == stored.outputFormat
    ensures stored.outputFormat == "" ==> s.outputFormat == "table"
    ensures stored.servers.Some? ==> s.servers == stored.servers.value
    ensures stored.servers.None? ==> s.servers == map[]
  {
    Settings(
      stored.defaultServer,
      if stored.outputFormat == "" then "table" else stored.outputFormat,
      match stored.servers
      case Some(m) => m
      case None => map[])
  }

  /** Normalising what Normalize produced changes nothing. */
  lemma NormalizeIdempotent(stored: Stored)
    ensures var s := Normalize(stored);
            Normalize(Stored(s.defaultServer, s.outputFormat, Some(s.servers))) == s
  {
  }

  /** The settings Load yields, or the error it reports. */
  function LoadSettings(input: LoadInput): (r: Result<Settings>)
    ensures input.Missing? ==> r == Ok(Settings("", "table", map[]))
    ensures input.Missing? ==> r == Ok(Normalize(Stored("", "", None)))
    ensures input.Parsed? ==> r == Ok(Normalize(input.stored))
    ensures input.HomeDirError? ==> r == Err(input.msg)
    ensures input.ReadError? ==> r == Err("failed to read config file: " + input.msg)
    ensures input.ParseError? ==> r == Err("failed to parse config file: " + input.msg)
    ensures r.Ok? ==> r.value.outputFormat != ""
  {
    match input
    case HomeDirError(msg) => Err(msg)
    case Missing => Ok(Settings("", "table", map[]))
    case ReadError(msg) => Err("failed to read config file: " + msg)
    case ParseError(msg) => Err("failed to parse config file: " + msg)
    case Parsed(stored) => Ok(Normalize(stored))
  }

  /** Load: a fresh Config holding LoadSettings' result, or its error. */
  method Load(input: LoadInput) returns (cfg: Option<Config>, err: Option<string>)
    ensures LoadSettings(input).Ok? ==> err == None && cfg.Some? && fresh(cfg.value)
    ensures LoadSettings(input).Ok? ==> cfg.Some? && cfg.value.Snapshot() == LoadSettings(input).value
    ensures LoadSettings(input).Err? ==> cfg == None && err == Some(LoadSettings(input).msg)
  {
    match LoadSettings(input)
    case Ok(s) =>
      var c := new Config(s);
      cfg, err := Some(c), None;
    case Err(msg) =>
      cfg, err := None, Some(msg);
  }
}
