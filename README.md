# unraidcli, modelled in Dafny

`unraidcli` is a command-line client for Unraid servers. It talks to the
server's GraphQL API. Its commands manage Docker containers, VMs, shares,
logs and server profiles, and print the answers as coloured tables or as
JSON/YAML. This project models the logic that runs on the client side, and
proves properties of it:

- **The API client** (`client.dfy`, module `UnraidClient`):
  - endpoint normalisation;
  - the ordered disk list of an array;
  - three-tier resolution of a user token to a container or VM ID (exact ID, then exact name, then ID prefix);
  - the variable maps sent with two queries.
- **The output layer**:
  - the colour switch and styling (`color.dfy`, `Color`);
  - the column-aligned table and its header-to-cell records (`table.dfy`, `Table`);
  - the formatter with its print paths, byte-size and uptime renderings (`formatter.dfy`, `Formatter`);
  - the watch loop, over a trace of ticker and cancel events (`watch.dfy`, `Watch`).
- **The server-profile table** (`config.dfy`, `Config`): a class whose methods update the profile map and the default profile in place, plus Load's normalisation of the file.
- **The command layer**:
  - container filters, lookups, stats selection and bulk start/stop (`cmd_docker.dfy`, `DockerCmd`);
  - the health verdict (`cmd_health.dfy`, `HealthCmd`);
  - log tailing (`cmd_logs.dfy`, `LogsCmd`);
  - share rows and lookup (`cmd_shares.dfy`, `SharesCmd`);
  - the `config` commands (`cmd_config.dfy`, `ConfigCmd`);
  - the root pre-run hook (`cmd_root.dfy`, `RootCmd`).
- **Shared helpers** (`common.dfy`, `Common`): `Option`, `Result`, ASCII case mapping, decimal text of integers, `Filter` and `Count`.

Everything outside the process is an input of the model:

- A network fetch is a `Result` value.
- The connection test and Save are given outcomes.
- The environment and the terminal check at start-up are arguments.
- The ticker and context are an event trace.
- Writing to standard output is a `Formatter`'s `output` sequence of text lines and encoder calls.

A panic that user input can trigger is modelled as an outcome. It is a `Panicked` outcome when a command is given or loads a URL shorter than "/graphql", and a `None` from the as-written key mask. Two panics are written as preconditions. The first is one the server's answers rule out: a container always has at least one name. The second is `UnraidClient.New`, which requires the length its slice needs. The source calls `client.New` without checking that length (cmd/root.go:64, cmd/config.go:59); the model's `ConfigCmd.Set` and `RootCmd.PreRun` test it and return `Panicked` where the source would panic.

## Model

| member | source | states |
|---|---|---|
| UnraidClient.New | internal/client/unraid.go:20-33 | the stored URL always ends in "/graphql"; it is the input when the input already ends so, else input + "/graphql"; the key is kept; a URL of at least 8 bytes is required because the code slices before checking |
| UnraidClient.NewIdempotent | internal/client/unraid.go:20-24 | normalising a normalised URL changes nothing |
| UnraidClient.AllDisks | internal/client/unraid.go:210-228 | boot (only when present), then parities, data disks and caches, in that order; the length is the sum of the parts |
| UnraidClient.AllDisksMembership | internal/client/unraid.go:210-228 | a disk is listed exactly when it is the boot disk or in one of the three groups |
| UnraidClient.FindContainerID | internal/client/unraid.go:405-437 | a listing error comes back unchanged; an exact ID match wins; otherwise the first container with a name equal to the token after one leading "/" is dropped; otherwise the first ID with the token as prefix; the result is always a listed ID; "container not found: <token>" exactly when no tier matches |
| UnraidClient.EmptyTokenPicksFirst | internal/client/unraid.go:429-434 | an empty token resolves whenever the list is non-empty, to the first ID when no ID or name is empty |
| UnraidClient.PrefixTierExample | internal/client/unraid.go:411-434 | an exact ID later in the list beats an earlier prefix match |
| UnraidClient.FindVMID | internal/client/unraid.go:570-598 | the same three tiers over VMs, names compared verbatim, error "VM not found: <token>" |
| UnraidClient.VmNameNotTrimmed | internal/client/unraid.go:585 | a VM named "/web" is not found by "web", unlike a container |
| UnraidClient.NotificationVariables | internal/client/unraid.go:1001-1009 | type, offset and limit are always sent; importance only when non-empty |
| UnraidClient.LogFileVariables | internal/client/unraid.go:1136-1146 | path is always sent; lines and startLine only when positive |
| Color.ColorSwitch.Init | internal/output/color.go:45-55 | colours start on exactly when NO_COLOR is empty and stdout is a character device |
| Color.ColorSwitch.DisableColors | internal/output/color.go:30-32 | the switch is off afterwards |
| Color.ColorSwitch.EnableColors | internal/output/color.go:35-37 | the switch is on afterwards |
| Color.ColorSwitch.ColorsEnabled | internal/output/color.go:40-42 | reports the last value set |
| Color.Colorize | internal/output/color.go:58-63 | the text unchanged when colours are off or no colour is given; otherwise exactly colour, text and reset |
| Color.UncolorColorize | internal/output/color.go:58-63 | stripping the colour prefix and the reset suffix recovers the text |
| Color.ColorGating | internal/output/color.go:59-61 | with colours off every style is the identity |
| Color.ToneCode | internal/output/color.go:10-25 | only the plain tone has the empty code |
| Color.Success | internal/output/color.go:111-113 | without colour exactly "✓ " + text; with colour the bold green code, "✓", the reset code, a space, then the text unchanged |
| Color.Error | internal/output/color.go:116-118 | as Success, with a bold red "✗" |
| Color.Warning | internal/output/color.go:121-123 | as Success, with a bold yellow "⚠" |
| Color.Info | internal/output/color.go:126-128 | as Success, with a bold blue "ℹ" |
| Color.StateTone | internal/output/color.go:131-150 | green, red and yellow exactly for the listed run/ok, stop/fail and transitional/warn states; plain for anything else |
| Color.ColorizeState | internal/output/color.go:131-150 | always shows the upper-cased state, coloured by its tone when colours are on |
| Color.ColorizeStateIgnoresCase | internal/output/color.go:132 | the styling of a state does not depend on its letter case |
| Color.FormatBool | internal/output/formatter.go:218-223 | stripping its colour leaves "Yes" or "No" |
| Color.PercentTone | internal/output/color.go:154-177 | normal polarity: at least 90 red, [75,90) yellow, below 75 green; reverse: at least 75 green, [50,75) yellow, below 50 red; disjoint and exhaustive |
| Color.PercentToneMonotone | internal/output/color.go:160-176 | higher usage is never less alarming; reversed, never more |
| Color.TemperatureTone | internal/output/color.go:180-191 | at least 60 red, [50,60) yellow, [40,50) cyan, below 40 blue |
| Color.TemperatureToneMonotone | internal/output/color.go:183-190 | the bands ascend in severity |
| Table.Widths | internal/output/formatter.go:78-89 | one width per header |
| Table.WidthsAreMaxima | internal/output/formatter.go:78-89 | each width is at least its header and every in-range cell, and equals one of them; cells past the headers never count |
| Table.PadRight | internal/output/formatter.go:94 | the padded cell has exactly the width, starts with the cell and ends in spaces |
| Table.Render | internal/output/formatter.go:92-122 | exactly 2 + rows lines: header, separator, then rows in order |
| Table.HeaderAligned | internal/output/formatter.go:92-98 | header i starts at the column's offset, padded to its width |
| Table.SeparatorAligned | internal/output/formatter.go:101-107 | the separator has widths[i] dashes at column i |
| Table.RowAligned | internal/output/formatter.go:110-122 | every in-range cell starts at its column's offset, padded to its width |
| Table.PastHeaderCell | internal/output/formatter.go:110-121 | a cell past the last header is written unpadded, and the last such cell ends the line |
| Table.ShortRowEnds | internal/output/formatter.go:110-121 | a row shorter than the headers ends right after its last cell: its line is the widths of its own columns plus two spaces between them |
| Table.RowRecord | internal/output/formatter.go:63-71 | with at least as many cells as headers, the keys are exactly the headers |
| Table.RowRecordKeys | internal/output/formatter.go:63-71 | a key is present exactly when it is one of the first min(headers, cells) headers |
| Table.RowRecordValue | internal/output/formatter.go:63-71 | a key maps to the cell of its last header occurrence in range |
| Table.Records | internal/output/formatter.go:61-74 | one record per row, in order |
| Table.RecordsMatchTable | internal/output/formatter.go:61-74 | with distinct headers, record i maps each in-range header to row i's cell under it |
| Formatter.ParseFormat | internal/output/formatter.go:32-44 | lower-cased "json" and "yaml" select those formats; anything else is a table |
| Formatter.ParseFormatName | internal/output/formatter.go:33 | every format's own name, in any letter case, selects it |
| Formatter.ParseFormatIdempotent | internal/output/formatter.go:32-44 | normalising a normalised name changes nothing |
| Formatter.Formatter.constructor | internal/output/formatter.go:32-44 | the format is ParseFormat of the name; nothing written yet |
| Formatter.Formatter.Print | internal/output/formatter.go:47-57 | table mode returns the error and writes nothing; otherwise one encoder call with the data |
| Formatter.Formatter.PrintTable | internal/output/formatter.go:60-123 | table mode writes exactly the lines of Table.Render; otherwise one encoder call with Table.Records |
| Formatter.RowMap | internal/output/formatter.go:65-70 | the map built for one row is Table.RowRecord: each header with a cell maps to that cell |
| Formatter.RecordsOf | internal/output/formatter.go:63-72 | the record slice is Table.Records: one RowRecord per row, in order |
| Formatter.Formatter.PrintKeyValue | internal/output/formatter.go:126-135 | table mode writes one "key:\tvalue" line per entry, each entry once, in some order; otherwise one encoder call |
| Formatter.Formatter.PrintSuccess | internal/output/formatter.go:152-161 | "✓ message" in table mode, a success status record otherwise |
| Formatter.Formatter.PrintError | internal/output/formatter.go:164-173 | "✗ message" in table mode, an error status record otherwise |
| Formatter.ColumnWidths | internal/output/formatter.go:78-89 | the nested width loops over an array compute Table.Widths |
| Formatter.JoinCells | internal/output/formatter.go:92-122 | cells joined by two spaces, as Table.Join |
| Formatter.UnitExponent | internal/output/formatter.go:181-186 | the search over powers of 1024 stays within units 0 to 5 |
| Formatter.UnitExponentUnique | internal/output/formatter.go:181-186 | an exponent e with 1024^(e+1) <= bytes < 1024^(e+2) is the one the search finds |
| Formatter.ByteSizeOf | internal/output/formatter.go:176-187 | exact "<n> B" exactly below 1024, negatives included; otherwise 1024^(exp+1) <= bytes < 1024^(exp+2), unit "KMGTPE"[exp], divisor 1024^(exp+1) |
| Formatter.FormatBytes | internal/output/formatter.go:176-187 | the repeated-division loop chooses exactly ByteSizeOf |
| Formatter.UptimeParts | internal/output/formatter.go:190-195 | for s >= 0: hours < 24, minutes < 60, and days*86400 + hours*3600 + minutes*60 <= s < that + 60 |
| Formatter.FormatUptime | internal/output/formatter.go:190-202 | for s >= 0: "Xd Yh Zm" from one day on, "Yh Zm" from one hour, "Zm" below, with X, Y, Z the days, hours of the day and minutes of the hour of UptimeParts; always ends in the minutes |
| Watch.Effects | internal/output/watch.go:18-36 | every call of fn is preceded by exactly one screen clear |
| Watch.LoopClosedForm | internal/output/watch.go:26-38 | the select loop makes one call per tick before the first cancel and stops at the first failing call |
| Watch.WatchClosedForm | internal/output/watch.go:16-39 | calls = 1 + ticks processed before the first cancel or first failure |
| Watch.ErrorIsLastCall | internal/output/watch.go:21-23 | a returned error is the last call's error, and every earlier call succeeded |
| Watch.NilMeansCancelled | internal/output/watch.go:29-31 | nil is returned only at a cancel, after all calls succeeded |
| Watch.Watch | internal/output/watch.go:16-39 | the loop's ending and effects are those of the step semantics; a failing first call returns its error after one clear and one call |
| Config.Config.constructor | internal/config/config.go:41-46 | the object holds the given settings |
| Config.Config.GetServer | internal/config/config.go:96-111 | the lookup on the current fields is ResolveServer |
| Config.ResolveServer | internal/config/config.go:96-111 | an empty name means the default; no name at all fails with "no server specified..."; success exactly when the resolved name is a key, with its entry; otherwise "server '<name>' not found in configuration" |
| Config.DefaultResolves | internal/config/config.go:97-103 | with a configured default, the empty name resolves to it |
| Config.NoDefaultNeedsName | internal/config/config.go:97-103 | without a default only an explicit configured name resolves |
| Config.Config.SetServer | internal/config/config.go:114-128 | only that entry is inserted or overwritten; the default is set only when it was empty; the profile is resolvable afterwards; the invariant "default empty or a key" is kept |
| Config.Config.RemoveServer | internal/config/config.go:131-149 | a missing name errors and changes nothing; otherwise exactly that key goes; a removed default is replaced by some remaining key, or "" when none remain; the invariant is kept |
| Config.Normalize | internal/config/config.go:59-64 | an empty format becomes "table", a missing table an empty map, everything else is kept |
| Config.NormalizeIdempotent | internal/config/config.go:59-64 | normalising twice is normalising once |
| Config.LoadSettings | internal/config/config.go:34-67 | a missing file gives {"table", no servers}; read and parse errors are wrapped; the format is never empty |
| Config.Load | internal/config/config.go:34-67 | a fresh object holding LoadSettings, or its error |
| DockerCmd.FilterByState | cmd/docker.go:46-54 | an empty filter keeps all; otherwise exactly the containers whose state equals it case-insensitively, in order |
| DockerCmd.StateFilterKeeps | cmd/docker.go:46-54 | a container is kept exactly when listed and its state matches |
| DockerCmd.KeepRunning | cmd/docker.go:134-140 | exactly the containers whose lower-cased state is "running", in order |
| DockerCmd.DisplayName | cmd/docker.go:71-74 | the first name with one leading "/" removed; a non-empty name list is required |
| DockerCmd.AutostartCell | cmd/docker.go:76-79 | "✓" exactly when autostart is set, "" otherwise |
| DockerCmd.Row | cmd/docker.go:70-88 | one cell per header: display name, image, coloured state, status, autostart mark |
| DockerCmd.BuildRows | cmd/docker.go:70-88 | one row per container, in order |
| DockerCmd.MatchesAnyArg | cmd/docker.go:355-364 | true exactly when some argument equals the display name or the ID, or prefixes the ID |
| DockerCmd.SelectForStats | cmd/docker.go:351-375 | containers requested by some argument (all when there are none), each once and in order, then only the running ones |
| DockerCmd.StatsSelection | cmd/docker.go:351-375 | a container is selected exactly when listed, requested and running |
| DockerCmd.LogsLookup | cmd/docker.go:452-466 | the first container matching by name, ID or ID prefix in a single pass; "container '<token>' not found" when none does |
| DockerCmd.FindForLogs | cmd/docker.go:452-466 | the search loop with break computes LogsLookup |
| DockerCmd.LogsFoundIsResolvable | cmd/docker.go:452-466 | whatever logs finds, FindContainerID also resolves |
| DockerCmd.LogsPrecedenceDiffers | cmd/docker.go:458 | an earlier prefix match beats a later exact name in logs, unlike FindContainerID |
| DockerCmd.ActOnAll | cmd/docker.go:284-300 | every argument is attempted by its own call; the failures are the arguments at exactly the failed positions, in order; an error exactly when some call failed, counting and listing the failures |
| DockerCmd.FailedIndices | cmd/docker.go:285-292 | the failed positions, strictly increasing, each a failed call, and every failed call among them |
| DockerCmd.SomeCallFailed | cmd/docker.go:295-297 | the failure list is non-empty exactly when some call failed |
| DockerCmd.ListingOutputAsWritten | cmd/docker.go:61-93 | the raw flag picks the branch: a non-empty flag that is not "table" but parses to table writes nothing |
| DockerCmd.UnknownFlagPrintsNothing | cmd/docker.go:61 | `-o xml` and `-o TABLE` print nothing |
| DockerCmd.StoredFormatEncodesCells | cmd/docker.go:61 | with no flag and "json" stored, the coloured table cells are encoded instead of the containers |
| DockerCmd.ListingOutput | cmd/docker.go:61-93 | a table formatter writes 2 + rows lines; otherwise one encoder call with the containers |
| DockerCmd.ListingOutputAgrees | cmd/docker.go:61-93 | for the flags "table", "json" and "yaml" the corrected output is what the source prints, and never empty |
| DockerCmd.ShowListing | cmd/docker.go:61-93 | the formatter's output grows by ListingOutput |
| DockerCmd.ListContainers | cmd/docker.go:35-117 | fetch error wrapped and nothing written; "No containers found." when the filter leaves none; otherwise the listing |
| DockerCmd.ListRunning | cmd/docker.go:125-176 | as ls, over the running containers, with "No running containers found." |
| DockerCmd.ShowStats | cmd/docker.go:351-408 | the listing of the selected containers, plus the resource-usage note under a table |
| HealthCmd.TallyDisks | cmd/health.go:42-60 | total = number of disks, healthy = number with DISK_OK status, healthy <= total; warn exactly when some disk has another non-empty status or is at 60 degrees or more |
| HealthCmd.CountBelowTotal | cmd/health.go:62-64 | fewer healthy than total exactly when some disk is not DISK_OK |
| HealthCmd.ArrayWarnsSimplified | cmd/health.go:34-66 | the array section warns exactly when the state is not STARTED or some disk is not DISK_OK or is hot |
| HealthCmd.TallyContainers | cmd/health.go:103-114 | running + stopped = number of containers |
| HealthCmd.Assess | cmd/health.go:29-178 | hasErrors exactly on a failed fetch, parity errors or unread alerts; hasWarnings exactly on the array, CPU/memory at 90 or unread warnings |
| HealthCmd.VerdictOf | cmd/health.go:184-193 | errors take precedence; healthy exactly when neither flag is set |
| HealthCmd.SummaryLine | cmd/health.go:184-193 | the verdict text after its symbol; exact text without colour |
| HealthCmd.AnyFetchErrorIsNotHealthy | cmd/health.go:30-32 | one failed fetch makes the verdict "errors" |
| LogsCmd.TailStart | cmd/logs.go:132-135 | never negative; start + lines = total when total > lines; 0 otherwise |
| LogsCmd.TailWindow | cmd/logs.go:85-87 | the requested window reaches the last line and holds min(lines, total) lines |
| LogsCmd.Reading | cmd/logs.go:77-93 | one request from line 0 without --tail; with it, a whole-file request, then one from TailStart if that succeeded; the result answers the last request, errors wrapped |
| LogsCmd.ReadLog | cmd/logs.go:126-140 | the step-by-step requests are those of Reading |
| LogsCmd.Heading | cmd/logs.go:98-104 | "Showing last N lines:" with --tail, "Showing first N lines:" for positive N, otherwise a blank line |
| LogsCmd.ViewLines | cmd/logs.go:95-105 | path, total, heading, then the content |
| LogsCmd.ShowLog | cmd/logs.go:90-108 | a failed request writes nothing; otherwise the view lines (or the content alone for tail) in table mode, the content record otherwise |
| SharesCmd.TruncateComment | cmd/shares.go:54-57 | at most 30 characters; kept verbatim up to 30; otherwise the first 27 and "..." |
| SharesCmd.TruncateIdempotent | cmd/shares.go:54-57 | shortening twice is shortening once |
| SharesCmd.UsedPercent | cmd/shares.go:44-47 | no percentage exactly when the size is 0 or less; between 0 and 100 when used <= size |
| SharesCmd.UsedCell | cmd/shares.go:44-47 | "0%" whenever the size is 0 or less |
| SharesCmd.ShareRow | cmd/shares.go:59-67 | seven cells under the headers; the cache cell is non-empty exactly when the share is cached; the comment is shortened |
| SharesCmd.BytesCell | cmd/shares.go:61-63 | the text of FormatBytes |
| SharesCmd.ShareRows | cmd/shares.go:43-68 | one row per share, in order |
| SharesCmd.BuildShareRow | cmd/shares.go:44-67 | the cells built for one share are ShareRow's: name, three byte sizes, used percentage, cache mark, truncated comment |
| SharesCmd.ListShares | cmd/shares.go:29-73 | fetch error wrapped; "No shares found." for none; otherwise the table or the shares record |
| SharesCmd.Lookup | cmd/shares.go:96-108 | found exactly when some share has that exact name, and then a share of that name; otherwise "share '<name>' not found" |
| SharesCmd.FindShare | cmd/shares.go:96-108 | the loop with break computes Lookup |
| SharesCmd.FirstNamesake | cmd/shares.go:99-103 | of several shares with the name, the first is found |
| ConfigCmd.ProfileName | cmd/config.go:44-47 | an empty --name becomes "default" |
| ConfigCmd.SetMessages | cmd/config.go:73-76 | the success line, plus the default notice exactly when the profile is the default |
| ConfigCmd.Set | cmd/config.go:36-79 | load error, then missing --url before missing --apikey, before the connection test and any save; a short URL panics in client.New; on success the profile is stored and resolvable, and becomes the default only when there was none |
| ConfigCmd.FirstProfileBecomesDefault | internal/config/config.go:125-127 | the first profile set resolves as the default |
| ConfigCmd.MaskKeyAsWritten | cmd/config.go:114-117 | the mask panics exactly for keys shorter than 4 |
| ConfigCmd.ShortKeyPanics | cmd/config.go:114 | the key "abc" panics |
| ConfigCmd.MaskKey | cmd/config.go:113-117 | "***" + the last 4 from length 8; "***" below it; never more than 4 key characters shown |
| ConfigCmd.MaskKeyAgrees | cmd/config.go:114-117 | wherever the source does not panic, it masks as MaskKey |
| ConfigCmd.ProfileBlock | cmd/config.go:106-118 | " (default)" exactly on the default profile; URL; masked key |
| ConfigCmd.BlocksAt | cmd/config.go:105-119 | the block of the i-th visited profile sits at lines 3i to 3i+2 |
| ConfigCmd.Show | cmd/config.go:93-119 | the empty-table hint, or the header and one block per profile, each profile once in some order |
| ConfigCmd.Profiles | cmd/config.go:147-170 | one row and one record per profile, each once; "✓" and is_default exactly for the default |
| ConfigCmd.OneDefaultRow | cmd/config.go:147-153 | exactly one row is marked when the default is configured, none otherwise |
| ConfigCmd.List | cmd/config.go:131-176 | load error; "No servers configured."; otherwise each profile visited once (the returned order), and exactly the rendered table of ProfileRows in that order, or one encoder call with ProfileInfos in that order |
| ConfigCmd.Remove | cmd/config.go:186-205 | load error; RemoveServer's error unchanged; otherwise the key is gone, the new default is reported, save errors are wrapped |
| RootCmd.SelectFormat | cmd/root.go:51-55 | a non-empty --output wins over the stored format, and the result passes through ParseFormat |
| RootCmd.DefaultFormatIsTable | cmd/root.go:51-55 | with neither a flag nor a stored format, the formatter is a table |
| RootCmd.PreRun | cmd/root.go:38-67 | config commands skip the hook; load and GetServer errors are wrapped before any client exists; otherwise the client of the resolved profile and the selected format |
| RootCmd.ReadyTalksToProfile | cmd/root.go:58-64 | the client uses the key of the named or default profile and a URL ending in "/graphql" |

## Left out

- The GraphQL transport, every query body, context timeouts, and the signal-handling goroutines of the watch commands: network and concurrency. A fetch is an input value.
- JSON and YAML encoding: foreign libraries. An encoder call is recorded with its format and value, and it is assumed to succeed.
- Floating-point text: `%.1f` in FormatBytes, the share and array percentages, FormatTemperature, and the percentage and temperature labels. The text of a real is a parameter (`decimal`, `shown`); only band selection and zero guards are modelled. The CPU/memory thresholds are compared as reals.
- Unicode: strings are sequences of characters, and cells are assumed ASCII. Go's byte length and rune-count padding, and byte-based comment truncation, then agree.
- File I/O: GetConfigPath, reading the file and Save. Their outcomes are inputs (`LoadInput`, `saveErr`). A nil profile map behaves as an empty one.
- The colour start-up check reads the environment and stats stdout. Both are constructor arguments.
- Go's map iteration order: PrintKeyValue, config show/ls and RemoveServer's new default visit keys in an order the model leaves open.
- clearScreen and the ticker: replaced by the effects sequence and the event trace.
- The thin print commands (array, vm, server, parity, notifications, plugin, metrics), the cobra wiring, "Last updated" timestamps and packaging: no logic beyond printing.
- The non-table branch of every command prints through Print, whose error is discarded. The command flows use the corrected dispatch by the formatter's own format; see Findings.
- ConfigCmd.Show: takes loaded settings and the path. Its load-error wrapping is the same as in List and Remove and is not repeated.
- ConfigCmd.Set: the progress line "Testing connection to <url>..." and any lines printed before a failure or panic are not recorded; `Failed` and `Panicked` carry only the error.
- HealthCmd.Assess: the printed report lines are not modelled, only the two flags and the verdict. The command always returns nil.
- LogsCmd.ShowLog: a negative --lines is passed through unchecked, as in the source. No property is claimed about it beyond TailStart's.
- DockerCmd.DisplayName: a container with no names makes the source panic. It is a precondition, because the API always returns at least one name.

## Findings

| source | as written | input that shows it | evidently intended | confidence | as-written member | corrected member |
|---|---|---|---|---|---|---|
| cmd/docker.go:61 (also 147, 382; cmd/shares.go:39; cmd/logs.go:95, 142; cmd/config.go:143) | the table branch is chosen by the raw --output flag (`"" or "table"`), while the formatter normalises the flag or the stored format | `-o TABLE` or `-o xml`: the formatter is in table mode, the non-table branch calls Print, Print refuses, the error is dropped and nothing is printed; no flag with `output_format: json` stored encodes the coloured table cells | branch on the formatter's own format | medium, not executed | DockerCmd.ListingOutputAsWritten (UnknownFlagPrintsNothing, StoredFormatEncodesCells) | DockerCmd.ListingOutput (ListingOutputAgrees, ShowListing) |
| cmd/config.go:114-117 | the last four bytes of the API key are sliced before the length is checked | a profile whose key is "abc" (config set only requires a non-empty key): `config show` panics | keys shorter than 8 are shown as "***" | high, not executed | ConfigCmd.MaskKeyAsWritten (ShortKeyPanics) | ConfigCmd.MaskKey (MaskKeyAgrees, used by ConfigCmd.Show) |
