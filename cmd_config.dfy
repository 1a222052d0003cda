/**
 * The `config` commands (cmd/config.go): `set` validates its flags, tests
 * the connection and stores the profile; `show` prints every profile with
 * its API key masked; `ls` lists the profiles as a table or as records;
 * `remove` deletes one. None of them needs a server, so the root command
 * does not load the configuration for them; each loads it itself.
 *
 * The connection test, Save and the configuration file's path are
 * parameters: `test` is the error TestConnection returns for a client,
 * `saveErr` the error Save returns.
 */
module ConfigCmd {
  import opened Common
  import UnraidClient
  import opened Config
  import F = Formatter
  import Table

  /**
   * How a command ends: its printed lines, its error, or a runtime panic.
   * `Done` carries the lines printed after the work succeeded; on the
   * `Failed` and `Panicked` paths the progress lines printed before the
   * failure (such as "Testing connection to <url>...") are not recorded.
   */
  datatype Outcome = Done(printed: seq<string>) | Failed(msg: string) | Panicked

  const LoadFailed := "failed to load config: "
  const SaveFailed := "failed to save config: "

  /** The profile `config set` writes when --name is not given. */
  function ProfileName(flag: string): (name: string)
    ensures name != ""
    ensures flag != "" ==> name == flag
    ensures flag == "" ==> name == "default"
  {
    if flag == "" then "default" else flag
  }

  // ---------------------------------------------------------------------
  // config set
  // ---------------------------------------------------------------------

  function SetMessages(name: string, newDefault: string): (lines: seq<string>)
    ensures 1 <= |lines| <= 2
    ensures lines[0] == "\U{2713} Server '" + name + "' configured successfully"
    ensures |lines| == 2 <==> newDefault == name
  {
    ["\U{2713} Server '" + name + "' configured successfully"] +
    (if newDefault == name then ["\U{2713} Set as default server"] else [])
  }

  /**
   * `config set`: load, default the name, require --url then --apikey,
   * test the connection, store the profile and save. client.New slices the
   * last eight bytes of the URL, so a URL shorter than that panics.
   * `written` is what Save was asked to write.
   */
  method Set(input: LoadInput, nameFlag: string, url: string, apiKey: string,
             test: UnraidClient.Client -> Option<string>, saveErr: Option<string>)
    returns (outcome: Outcome, written: Option<Settings>)
    ensures LoadSettings(input).Err? ==>
              outcome == Failed(LoadFailed + LoadSettings(input).msg) && written == None
    ensures LoadSettings(input).Ok? && url == "" ==> outcome == Failed("--url is required") && written == None
    ensures LoadSettings(input).Ok? && url != "" && apiKey == "" ==>
              outcome == Failed("--apikey is required") && written == None
    ensures LoadSettings(input).Ok? && url != "" && apiKey != "" && |url| < 8 ==>
              outcome == Panicked && written == None
    ensures LoadSettings(input).Ok? && url != "" && apiKey != "" && |url| >= 8 &&
            test(UnraidClient.New(url, apiKey)).Some? ==>
              outcome == Failed("connection test failed: " + test(UnraidClient.New(url, apiKey)).value) &&
              written == None
    ensures written.Some? ==>
              var before := LoadSettings(input).value;
              var name := ProfileName(nameFlag);
              && LoadSettings(input).Ok?
              && written.value.servers == before.servers[name := ServerConfig(url, apiKey)]
              && written.value.outputFormat == before.outputFormat
              && written.value.defaultServer == (if before.defaultServer == "" then name else before.defaultServer)
              && ResolveServer(written.value, name) == Ok(ServerConfig(url, apiKey))
              && (saveErr.Some? ==> outcome == Failed(SaveFailed + saveErr.value))
              && (saveErr.None? ==>
                    outcome == Done(["Testing connection to " + url + "..."] +
                                    SetMessages(name, written.value.defaultServer)))
    ensures (LoadSettings(input).Ok? && url != "" && apiKey != "" && |url| >= 8 &&
             test(UnraidClient.New(url, apiKey)).None?) ==> written.Some?
  {
    var cfg, err := Load(input);
    if err.Some? {
      return Failed(LoadFailed + err.value), None;
    }
    var c := cfg.value;
    var name := nameFlag;
    if name == "" {
      name := "default";
    }
    if url == "" {
      return Failed("--url is required"), None;
    }
    if apiKey == "" {
      return Failed("--apikey is required"), None;
    }
    if |url| < 8 {
      return Panicked, None;
    }
    var testClient := UnraidClient.New(url, apiKey);
    var testErr := test(testClient);
    if testErr.Some? {
      return Failed("connection test failed: " + testErr.value), None;
    }
    c.SetServer(name, url, apiKey);
    written := Some(c.Snapshot());
    if saveErr.Some? {
      return Failed(SaveFailed + saveErr.value), written;
    }
    outcome := Done(["Testing connection to " + url + "..."] + SetMessages(name, c.defaultServer));
  }

  /** The first profile set on an empty configuration becomes the default. */
  lemma FirstProfileBecomesDefault(before: Settings, name: string, url: string, apiKey: string, after: Settings)
    requires before.defaultServer == ""
    requires after.servers == before.servers[name := ServerConfig(url, apiKey)]
    requires after.defaultServer == (if before.defaultServer == "" then name else before.defaultServer)
    requires name != ""
    ensures ResolveServer(after, "") == Ok(ServerConfig(url, apiKey))
  {
  }

  // ---------------------------------------------------------------------
  // config show
  // ---------------------------------------------------------------------

  /**
   * The key mask as written: the last four bytes are sliced before the
   * length is looked at, so a key shorter than four bytes panics (None).
   */
  function MaskKeyAsWritten(key: string): (r: Option<string>)
    ensures r.None? <==> |key| < 4
  {
    if |key| < 4 then None
    else
      var masked := "***" + key[|key| - 4..];
      if |key| < 8 then Some("***") else Some(masked)
  }

  /** A three-byte key, which `config set` accepts, makes `config show` panic. */
  lemma ShortKeyPanics()
    ensures MaskKeyAsWritten("abc") == None
  {
  }

  /**
   * The key mask: "***" alone for keys shorter than eight characters,
   * otherwise "***" and the last four. It never shows more than four
   * characters of the key, and none of a short key.
   */
  function MaskKey(key: string): (r: string)
    ensures HasPrefix(r, "***")
    ensures |r| <= 7
    ensures HasSuffix(key, r[3..])
    ensures |key| < 8 <==> r == "***"
    ensures |key| >= 8 ==> r[3..] == key[|key| - 4..]
  {
    if |key| < 8 then "***" else "***" + key[|key| - 4..]
  }

  /** Where the source does not panic, the corrected mask agrees with it. */
  lemma MaskKeyAgrees(key: string)
    ensures |key| >= 4 ==> MaskKeyAsWritten(key) == Some(MaskKey(key))
    ensures MaskKeyAsWritten(key).Some? ==> MaskKeyAsWritten(key).value == MaskKey(key)
  {
  }

  /** One profile's three lines under "Servers:". */
  function ProfileBlock(name: string, server: ServerConfig, defaultServer: string): (block: seq<string>)
    ensures |block| == 3
    ensures name == defaultServer ==> block[0] == "  " + name + " (default):"
    ensures name != defaultServer ==> block[0] == "  " + name + ":"
    ensures block[1] == "    URL: " + server.url
    ensures block[2] == "    API Key: " + MaskKey(server.apiKey)
  {
    var marker := if name == defaultServer then " (default)" else "";
    ["  " + name + marker + ":", "    URL: " + server.url, "    API Key: " + MaskKey(server.apiKey)]
  }

  /** The blocks of the profiles named in `order`, in that order. */
  function Blocks(order: seq<string>, s: Settings): (lines: seq<string>)
    requires forall i :: 0 <= i < |order| ==> order[i] in s.servers
    ensures |lines| == 3 * |order|
  {
    if order == [] then []
    else Blocks(order[..|order| - 1], s) + ProfileBlock(order[|order| - 1], s.servers[order[|order| - 1]], s.defaultServer)
  }

  /** Every profile's block sits at its position in the visiting order. */
  lemma {:induction false} BlocksAt(order: seq<string>, s: Settings, i: nat)
    requires forall k :: 0 <= k < |order| ==> order[k] in s.servers
    requires i < |order|
    ensures Blocks(order, s)[3 * i..3 * i + 3] == ProfileBlock(order[i], s.servers[order[i]], s.defaultServer)
  {
    var front := order[..|order| - 1];
    if i < |front| {
      BlocksAt(front, s, i);
      assert Blocks(order, s)[3 * i..3 * i + 3] == Blocks(front, s)[3 * i..3 * i + 3];
    }
  }

  /** A visiting order of the profile table: every name once. */
  predicate EnumeratesKeys(order: seq<string>, servers: map<string, ServerConfig>) {
    && |order| == |servers|
    && (forall i :: 0 <= i < |order| ==> order[i] in servers)
    && (forall i, j :: 0 <= i < j < |order| ==> order[i] != order[j])
    && (forall name :: name in servers ==> name in order)
  }

  /**
   * Part way through a loop over the table's keys: `order` holds the
   * visited names, each once, and `remaining` the others.
   */
  predicate Visiting(order: seq<string>, remaining: set<string>, servers: map<string, ServerConfig>) {
    && remaining <= servers.Keys
    && (forall i :: 0 <= i < |order| ==> order[i] in servers && order[i] !in remaining)
    && (forall i, j :: 0 <= i < j < |order| ==> order[i] != order[j])
    && (forall name :: name in servers && name !in remaining ==> name in order)
    && |order| + |remaining| == |servers|
  }

  /** Visiting one more name keeps the loop's bookkeeping. */
  lemma VisitStep(order: seq<string>, remaining: set<string>, servers: map<string, ServerConfig>, name: string)
    requires Visiting(order, remaining, servers) && name in remaining
    ensures Visiting(order + [name], remaining - {name}, servers)
  {
    assert |servers| == |servers.Keys|;
  }

  /** When nothing remains, every key has been visited exactly once. */
  lemma VisitDone(order: seq<string>, servers: map<string, ServerConfig>)
    requires Visiting(order, {}, servers)
    ensures EnumeratesKeys(order, servers)
  {
  }

  function ShowHeader(s: Settings, path: string): seq<string> {
    ["Config file: " + path, "",
     "Default server: " + s.defaultServer, "Output format: " + s.outputFormat, "",
     "Servers:"]
  }

  const NoServers := "No servers configured."

  /** One pass of the `config show` loop appends the visited profile's block. */
  lemma ShowStep(s: Settings, path: string, order: seq<string>, remaining: set<string>, name: string,
                 lines: seq<string>)
    requires Visiting(order, remaining, s.servers) && name in remaining
    requires lines == ShowHeader(s, path) + Blocks(order, s)
    ensures Visiting(order + [name], remaining - {name}, s.servers)
    ensures lines + ProfileBlock(name, s.servers[name], s.defaultServer) ==
              ShowHeader(s, path) + Blocks(order + [name], s)
  {
    VisitStep(order, remaining, s.servers, name);
    assert (order + [name])[..|order|] == order;
  }

  /**
   * `config show` on loaded settings: the path, then either the hint for
   * an empty table or the default, the format and one block per profile in
   * Go's map order (`order`), with the corrected key mask.
   */
  method Show(s: Settings, path: string) returns (lines: seq<string>, order: seq<string>)
    ensures s.servers == map[] ==>
              lines == ["Config file: " + path, "", NoServers, "",
                        "Run 'unraidcli config set --url <url> --apikey <key>' to add a server."]
    ensures s.servers != map[] ==>
              EnumeratesKeys(order, s.servers) && lines == ShowHeader(s, path) + Blocks(order, s)
  {
    if s.servers == map[] {
      return ["Config file: " + path, "", NoServers, "",
              "Run 'unraidcli config set --url <url> --apikey <key>' to add a server."], [];
    }
    lines := ShowHeader(s, path);
    order := [];
    var remaining := s.servers.Keys;
    assert |s.servers| == |s.servers.Keys|;
    while remaining != {}
      invariant Visiting(order, remaining, s.servers)
      invariant lines == ShowHeader(s, path) + Blocks(order, s)
      decreases |remaining|
    {
      var name :| name in remaining;
      var server := s.servers[name];
      var marker := "";
      if name == s.defaultServer {
        marker := " (default)";
      }
      var masked := MaskKey(server.apiKey);
      ShowStep(s, path, order, remaining, name, lines);
      lines := lines + ["  " + name + marker + ":", "    URL: " + server.url, "    API Key: " + masked];
      order := order + [name];
      remaining := remaining - {name};
    }
    VisitDone(order, s.servers);
  }

  // ---------------------------------------------------------------------
  // config ls
  // ---------------------------------------------------------------------

  const ListHeaders := ["Name", "URL", "Default"]

  function DefaultMark(name: string, defaultServer: string): string {
    if name == defaultServer then "\U{2713}" else ""
  }

  /** The table rows of `config ls` for profiles visited in `order`. */
  function ProfileRows(s: Settings, order: seq<string>): (rows: seq<seq<string>>)
    requires forall i :: 0 <= i < |order| ==> order[i] in s.servers
    ensures |rows| == |order|
  {
    seq(|order|, i requires 0 <= i < |order| => [order[i], s.servers[order[i]].url, DefaultMark(order[i], s.defaultServer)])
  }

  /** The records of `config ls` for profiles visited in `order`. */
  function ProfileInfos(s: Settings, order: seq<string>): (infos: seq<ServerInfo>)
    requires forall i :: 0 <= i < |order| ==> order[i] in s.servers
    ensures |infos| == |order|
  {
    seq(|order|, i requires 0 <= i < |order| => ServerInfo(order[i], s.servers[order[i]].url, order[i] == s.defaultServer))
  }

  /** The rows and records of `config ls`, one per profile in Go's map order. */
  method Profiles(s: Settings) returns (rows: seq<seq<string>>, infos: seq<ServerInfo>, order: seq<string>)
    ensures EnumeratesKeys(order, s.servers)
    ensures |rows| == |order| && |infos| == |order|
    ensures forall i :: 0 <= i < |order| ==>
              rows[i] == [order[i], s.servers[order[i]].url, DefaultMark(order[i], s.defaultServer)]
    ensures forall i :: 0 <= i < |order| ==>
              infos[i] == ServerInfo(order[i], s.servers[order[i]].url, order[i] == s.defaultServer)
  {
    rows, infos, order := [], [], [];
    var remaining := s.servers.Keys;
    assert |s.servers| == |s.servers.Keys|;
    while remaining != {}
      invariant Visiting(order, remaining, s.servers)
      invariant |rows| == |order| && |infos| == |order|
      invariant forall i :: 0 <= i < |order| ==>
                  rows[i] == [order[i], s.servers[order[i]].url, DefaultMark(order[i], s.defaultServer)]
      invariant forall i :: 0 <= i < |order| ==>
                  infos[i] == ServerInfo(order[i], s.servers[order[i]].url, order[i] == s.defaultServer)
      decreases |remaining|
    {
      var name :| name in remaining;
      var isDefault := "";
      if name == s.defaultServer {
        isDefault := "\U{2713}";
      }
      rows := rows + [[name, s.servers[name].url, isDefault]];
      infos := infos + [ServerInfo(name, s.servers[name].url, name == s.defaultServer)];
      VisitStep(order, remaining, s.servers, name);
      order := order + [name];
      remaining := remaining - {name};
    }
    VisitDone(order, s.servers);
  }

  /**
   * In any visiting order, exactly the default profile's row carries the
   * mark: one row when the default is configured, none otherwise.
   */
  lemma OneDefaultRow(s: Settings, order: seq<string>)
    requires EnumeratesKeys(order, s.servers)
    ensures (exists i :: 0 <= i < |order| && DefaultMark(order[i], s.defaultServer) != "") <==>
              s.defaultServer in s.servers
    ensures forall i, j :: (0 <= i < |order| && 0 <= j < |order| &&
              DefaultMark(order[i], s.defaultServer) != "" && DefaultMark(order[j], s.defaultServer) != "") ==> i == j
  {
    if s.defaultServer in s.servers {
      var i :| 0 <= i < |order| && order[i] == s.defaultServer;
      assert DefaultMark(order[i], s.defaultServer) != "";
    }
  }

  /**
   * `config ls`: the formatter is built from the --output flag alone (the
   * root command skips config commands); a table of profiles in table
   * mode, the profile records otherwise.
   */
  method List(input: LoadInput, outputFlag: string) returns (outcome: Outcome, written: seq<F.Emitted>, order: seq<string>)
    ensures LoadSettings(input).Err? ==> outcome == Failed(LoadFailed + LoadSettings(input).msg) && written == []
    ensures LoadSettings(input).Ok? && LoadSettings(input).value.servers == map[] ==>
              outcome == Done([NoServers]) && written == []
    ensures LoadSettings(input).Ok? && LoadSettings(input).value.servers != map[] ==>
              var s := LoadSettings(input).value;
              && outcome == Done([])
              && EnumeratesKeys(order, s.servers)
              && (F.ParseFormat(outputFlag) == F.TableFormat ==>
                    written == F.Lines(Table.Render(ListHeaders, ProfileRows(s, order))))
              && (F.ParseFormat(outputFlag) != F.TableFormat ==>
                    written == [F.Encoded(F.ParseFormat(outputFlag), F.Servers(ProfileInfos(s, order)))])
  {
    order := [];
    var cfg, err := Load(input);
    if err.Some? {
      return Failed(LoadFailed + err.value), [], order;
    }
    var s := cfg.value.Snapshot();
    if s.servers == map[] {
      return Done([NoServers]), [], order;
    }
    var f := new F.Formatter(outputFlag);
    var rows, infos;
    rows, infos, order := Profiles(s);
    assert rows == ProfileRows(s, order);
    assert infos == ProfileInfos(s, order);
    if f.format == F.TableFormat {
      f.PrintTable(ListHeaders, rows);
    } else {
      var ignored := f.Print(F.Servers(infos));
    }
    return Done([]), f.output, order;
  }

  // ---------------------------------------------------------------------
  // config remove
  // ---------------------------------------------------------------------

  /**
   * `config remove`: load, remove the profile (its error is returned as
   * is), save, and report the profile and the new default, if any.
   */
  method Remove(input: LoadInput, name: string, saveErr: Option<string>)
    returns (outcome: Outcome, written: Option<Settings>)
    ensures LoadSettings(input).Err? ==>
              outcome == Failed(LoadFailed + LoadSettings(input).msg) && written == None
    ensures LoadSettings(input).Ok? && name !in LoadSettings(input).value.servers ==>
              outcome == Failed(NotFoundMessage(name)) && written == None
    ensures LoadSettings(input).Ok? && name in LoadSettings(input).value.servers ==>
              var before := LoadSettings(input).value;
              && written.Some?
              && written.value.servers == before.servers - {name}
              && written.value.outputFormat == before.outputFormat
              && (before.defaultServer != name ==> written.value.defaultServer == before.defaultServer)
              && (before.defaultServer == name && written.value.servers == map[] ==> written.value.defaultServer == "")
              && (before.defaultServer == name && written.value.servers != map[] ==>
                    written.value.defaultServer in written.value.servers)
              && (saveErr.Some? ==> outcome == Failed(SaveFailed + saveErr.value))
              && (saveErr.None? && written.value.defaultServer == "" ==>
                    outcome == Done(["\U{2713} Server '" + name + "' removed"]))
              && (saveErr.None? && written.value.defaultServer != "" ==>
                    outcome == Done(["\U{2713} Server '" + name + "' removed",
                                     "\U{2713} Default server is now '" + written.value.defaultServer + "'"]))
  {
    var cfg, err := Load(input);
    if err.Some? {
      return Failed(LoadFailed + err.value), None;
    }
    var c := cfg.value;
    var removeErr := c.RemoveServer(name);
    if removeErr.Some? {
      return Failed(removeErr.value), None;
    }
    written := Some(c.Snapshot());
    if saveErr.Some? {
      return Failed(SaveFailed + saveErr.value), written;
    }
    var printed := ["\U{2713} Server '" + name + "' removed"];
    if c.defaultServer != "" {
      printed := printed + ["\U{2713} Default server is now '" + c.defaultServer + "'"];
    }
    outcome := Done(printed);
  }
}
