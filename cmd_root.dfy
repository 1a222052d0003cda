/**
 * The root command's pre-run hook (cmd/root.go): every command except the
 * `config` family loads the configuration, builds the formatter from the
 * --output flag or the stored format, resolves the server profile and
 * creates the API client.
 */
module RootCmd {
  import opened Common
  import UnraidClient
  import opened Config
  import F = Formatter

  /** The --output flag wins; an empty flag falls back to the stored format. */
  function SelectFormat(flag: string, stored: string): (f: F.Format)
    ensures flag != "" ==> f == F.ParseFormat(flag)
    ensures flag == "" ==> f == F.ParseFormat(stored)
  {
    F.ParseFormat(if flag == "" then stored else flag)
  }

  /** With no flag and nothing stored, Load's default "table" makes a table formatter. */
  lemma DefaultFormatIsTable(input: LoadInput)
    requires input.Missing? || (input.Parsed? && input.stored.outputFormat == "")
    ensures LoadSettings(input).Ok?
    ensures SelectFormat("", LoadSettings(input).value.outputFormat) == F.TableFormat
  {
  }

  /** The config commands manage the file themselves and skip the hook. */
  predicate SkipsHook(name: string, parentName: string) {
    name == "config" || parentName == "config"
  }

  const ConfigureHint := "\n\nRun 'unraidcli config set' to configure a server"

  /** What the hook leaves behind for the command. */
  datatype Prepared =
    | Skipped
    | Failed(msg: string)
    | Panicked
    | Ready(format: F.Format, client: UnraidClient.Client)

  /**
   * PersistentPreRunE. client.New slices the last eight bytes of the
   * profile's URL, so a stored URL shorter than that panics.
   */
  method PreRun(name: string, parentName: string, outputFlag: string, serverFlag: string, input: LoadInput)
    returns (p: Prepared)
    ensures SkipsHook(name, parentName) <==> p == Skipped
    ensures !SkipsHook(name, parentName) && LoadSettings(input).Err? ==>
              p == Failed("failed to load config: " + LoadSettings(input).msg)
    ensures !SkipsHook(name, parentName) && LoadSettings(input).Ok? ==>
              var s := LoadSettings(input).value;
              && (ResolveServer(s, serverFlag).Err? ==>
                    p == Failed("failed to get server config: " + ResolveServer(s, serverFlag).msg + ConfigureHint))
              && (ResolveServer(s, serverFlag).Ok? && |ResolveServer(s, serverFlag).value.url| < 8 ==>
                    p == Panicked)
              && (ResolveServer(s, serverFlag).Ok? && |ResolveServer(s, serverFlag).value.url| >= 8 ==>
                    var server := ResolveServer(s, serverFlag).value;
                    p == Ready(SelectFormat(outputFlag, s.outputFormat), UnraidClient.New(server.url, server.apiKey)))
  {
    if name == "config" || parentName == "config" {
      return Skipped;
    }
    var cfg, err := Load(input);
    if err.Some? {
      return Failed("failed to load config: " + err.value);
    }
    var c := cfg.value;
    var format := outputFlag;
    if format == "" {
      format := c.outputFormat;
    }
    var formatter := F.ParseFormat(format);
    var server := c.GetServer(serverFlag);
    if server.Err? {
      return Failed("failed to get server config: " + server.msg + ConfigureHint);
    }
    if |server.value.url| < 8 {
      return Panicked;
    }
    p := Ready(formatter, UnraidClient.New(server.value.url, server.value.apiKey));
  }

  /**
   * A command reaches the server of the profile it names, or the default
   * profile, and its client always talks to a GraphQL endpoint.
   */
  lemma ReadyTalksToProfile(name: string, parentName: string, outputFlag: string, serverFlag: string,
                            input: LoadInput, p: Prepared)
    requires !SkipsHook(name, parentName)
    requires LoadSettings(input).Ok?
    requires var s := LoadSettings(input).value;
             ResolveServer(s, serverFlag).Ok? && |ResolveServer(s, serverFlag).value.url| >= 8
    requires p == Ready(SelectFormat(outputFlag, LoadSettings(input).value.outputFormat),
                        UnraidClient.New(ResolveServer(LoadSettings(input).value, serverFlag).value.url,
                                         ResolveServer(LoadSettings(input).value, serverFlag).value.apiKey))
    ensures var s := LoadSettings(input).value;
            var profile := if serverFlag == "" then s.defaultServer else serverFlag;
            && profile in s.servers
            && p.client.apiKey == s.servers[profile].apiKey
            && HasSuffix(p.client.url, UnraidClient.GraphQLSuffix)
            && HasPrefix(p.client.url, s.servers[profile].url)
  {
  }
}
